/** Helpers of the agent: the text of a chat message, the `provider/model`
    name split, an attribute store, and the table of time-zone offsets the
    system prompt's clock lines are built from. */
module Utils {
  import opened Wrappers
  import opened Py

  // ---------------------------------------------------------------------
  // Message text
  // ---------------------------------------------------------------------

  /** One element of a list-valued message content: a string or a content
      block (a dictionary). */
  datatype ContentPart = TextPart(text: string) | BlockPart(block: map<string, Json>)

  /** A message's content: a string, a single dictionary, or a list of parts. */
  datatype Content =
    | TextContent(text: string)
    | BlockContent(block: map<string, Json>)
    | ListContent(parts: seq<ContentPart>)

  /** The text a list part contributes: a string as it is; for a block,
      `block.get("text") or ""`, which `"".join` refuses (TypeError) when it
      is a truthy value that is not a string. */
  function PartText(part: ContentPart): (r: Result<string, PyError>)
    ensures part.TextPart? ==> r == Ok(part.text)
    ensures r.Err? <==> && part.BlockPart? && "text" in part.block
                        && Truthy(part.block["text"]) && !part.block["text"].JStr?
    ensures r.Err? ==> r.error == TypeError
    ensures r.Ok? && part.BlockPart? && r.value != "" ==> "text" in part.block && part.block["text"] == JStr(r.value)
    ensures r.Ok? && part.BlockPart? ==>
              r.value == (if "text" in part.block && Truthy(part.block["text"]) && part.block["text"].JStr?
                          then part.block["text"].s else "")
  {
    match part
    case TextPart(s) => Ok(s)
    case BlockPart(block) =>
      if "text" !in block || !Truthy(block["text"]) then Ok("")
      else if block["text"].JStr? then Ok(block["text"].s)
      else Err(TypeError)
  }

  /** The texts of all parts, in order, or the error `join` raises. */
  function PartTexts(parts: seq<ContentPart>): (r: Result<seq<string>, PyError>)
    ensures r.Ok? ==> |r.value| == |parts| && forall k :: 0 <= k < |parts| ==> PartText(parts[k]) == Ok(r.value[k])
    ensures r.Err? <==> exists k :: 0 <= k < |parts| && PartText(parts[k]).Err?
    decreases |parts|
  {
    if parts == [] then Ok([])
    else
      var rest := PartTexts(parts[1..]);
      assert forall k :: 1 <= k < |parts| ==> parts[1..][k - 1] == parts[k];
      if PartText(parts[0]).Err? then Err(TypeError)
      else if rest.Err? then Err(TypeError)
      else Ok([PartText(parts[0]).value] + rest.value)
  }

  /** `get_message_text`. A dictionary content answers its "text" entry,
      whatever value that is, so the result is a value rather than a string. */
  function GetMessageText(content: Content): (r: Result<Json, PyError>)
    ensures content.TextContent? ==> r == Ok(JStr(content.text))
    ensures r.Err? ==> content.ListContent? && r.error == TypeError
  {
    match content
    case TextContent(s) => Ok(JStr(s))
    case BlockContent(block) => Ok(if "text" in block then block["text"] else JStr(""))
    case ListContent(parts) =>
      var texts :- PartTexts(parts);
      Ok(JStr(Strip(Concat(texts))))
  }

  /** A string content is returned unchanged, without stripping; a
      dictionary answers its "text" entry or "". */
  lemma MessageTextOfStringOrDict(s: string, block: map<string, Json>)
    ensures GetMessageText(TextContent(s)) == Ok(JStr(s))
    ensures "text" in block ==> GetMessageText(BlockContent(block)) == Ok(block["text"])
    ensures "text" !in block ==> GetMessageText(BlockContent(block)) == Ok(JStr(""))
  {
  }

  /** A list content fails exactly when a block's "text" is a truthy
      non-string. */
  lemma MessageTextOfListFails(parts: seq<ContentPart>)
    ensures GetMessageText(ListContent(parts)).Err? <==>
            exists k :: 0 <= k < |parts| && parts[k].BlockPart? && "text" in parts[k].block
                        && Truthy(parts[k].block["text"]) && !parts[k].block["text"].JStr?
  {
    if GetMessageText(ListContent(parts)).Err? {
      var k :| 0 <= k < |parts| && PartText(parts[k]).Err?;
      assert parts[k].BlockPart?;
    }
  }

  /** Otherwise it gives the concatenation of the parts' texts with the
      surrounding whitespace stripped. */
  lemma MessageTextOfList(parts: seq<ContentPart>)
    requires PartTexts(parts).Ok?
    ensures var t := Concat(PartTexts(parts).value);
            && GetMessageText(ListContent(parts)) == Ok(JStr(Strip(t)))
            && (exists i, j :: TrimmedAt(t, i, j) && Strip(t) == t[i..j])
  {
    var t := Concat(PartTexts(parts).value);
    assert GetMessageText(ListContent(parts)) == Ok(JStr(Strip(t)));
  }

  /** For instance, a padded string, a text block and a block without text
      give the inner text. */
  lemma MessageTextExample()
    ensures GetMessageText(ListContent([
              TextPart(" a"),
              BlockPart(map["text" := JStr("b\n")]),
              BlockPart(map["type" := JStr("image")])])) == Ok(JStr("ab"))
  {
    ExamplePartTexts();
    ExampleConcat();
    StripExample();
  }

  lemma ExamplePartTexts()
    ensures PartTexts([
              TextPart(" a"),
              BlockPart(map["text" := JStr("b\n")]),
              BlockPart(map["type" := JStr("image")])]) == Ok([" a", "b\n", ""])
  {
    var a, b, c := TextPart(" a"), BlockPart(map["text" := JStr("b\n")]), BlockPart(map["type" := JStr("image")]);
    assert [a, b, c][1..] == [b, c] && [b, c][1..] == [c] && [c][1..] == [];
    assert PartText(c) == Ok("");
    assert PartTexts([c]).Ok? && PartTexts([c]).value == [""];
    assert PartTexts([b, c]).Ok? && PartTexts([b, c]).value == ["b\n", ""];
    assert PartTexts([a, b, c]).Ok? && PartTexts([a, b, c]).value == [" a", "b\n", ""];
  }

  lemma ExampleConcat()
    ensures Concat([" a", "b\n", ""]) == " ab\n"
  {
    assert [" a", "b\n", ""][1..] == ["b\n", ""];
    assert ["b\n", ""][1..] == [""];
    assert Concat([""]) == "";
    assert Concat(["b\n", ""]) == "b\n";
  }

  lemma StripExample()
    ensures Strip(" ab\n") == "ab"
  {
    var t := " ab\n";
    assert IsSpace(t[0]) && !IsSpace(t[1]) && !IsSpace(t[2]) && IsSpace(t[3]);
    assert t[1..] == "ab\n";
    assert StripStart(t) == StripStart("ab\n");
    assert StripStart("ab\n") == "ab\n";
    assert "ab\n"[..2] == "ab";
    assert StripEnd("ab\n") == StripEnd("ab");
    assert StripEnd("ab") == "ab";
  }

  // ---------------------------------------------------------------------
  // The provider/model name
  // ---------------------------------------------------------------------

  /** The arguments `init_chat_model` receives. */
  datatype ModelChoice = ModelChoice(provider: string, model: string)

  const UnpackMessage: string := "not enough values to unpack (expected 2, got 1)"

  /** `provider, model = name.split("/", maxsplit=1)`: split once, on the
      first slash; a name without a slash cannot be unpacked. */
  function LoadChatModel(fullySpecifiedName: string): (r: Result<ModelChoice, PyError>)
    ensures r.Err? <==> '/' !in fullySpecifiedName
    ensures r.Err? ==> r.error == ValueError(UnpackMessage)
    ensures r.Ok? ==> && fullySpecifiedName == r.value.provider + "/" + r.value.model
                      && '/' !in r.value.provider
  {
    match IndexOf(fullySpecifiedName, '/')
    case None => Err(ValueError(UnpackMessage))
    case Some(i) =>
      assert fullySpecifiedName == fullySpecifiedName[..i] + "/" + fullySpecifiedName[i + 1..];
      Ok(ModelChoice(fullySpecifiedName[..i], fullySpecifiedName[i + 1..]))
  }

  /** The split is the inverse of joining a slash-free provider and any
      model with a slash: the model keeps its own slashes. */
  lemma LoadChatModelInvertsJoin(provider: string, model: string)
    requires '/' !in provider
    ensures LoadChatModel(provider + "/" + model) == Ok(ModelChoice(provider, model))
  {
    IndexOfAfterPrefix(provider, '/', model);
    var name := provider + "/" + model;
    assert name[..|provider|] == provider;
    assert name[|provider| + 1..] == model;
  }

  // ---------------------------------------------------------------------
  // The attribute store
  // ---------------------------------------------------------------------

  /** The text of the AttributeError a missing attribute raises. */
  const NoAttributePrefix: string := "'State' object has no attribute '"

  /** The message names the class, and the key sits between the prefix and
      the closing quote. */
  function NoAttributeMessage(key: string): (m: string)
    ensures StartsWith(m, NoAttributePrefix)
    ensures |m| == |NoAttributePrefix| + |key| + 1 && m[|m| - 1] == '\''
    ensures m[|NoAttributePrefix|..|m| - 1] == key
  {
    var m := NoAttributePrefix + key + "'";
    assert m[..|NoAttributePrefix|] == NoAttributePrefix;
    assert m[|NoAttributePrefix|..|m| - 1] == key;
    m
  }

  /** Different keys give different messages. */
  lemma NoAttributeMessageNamesTheKey(a: string, b: string)
    requires a != b
    ensures NoAttributeMessage(a) != NoAttributeMessage(b)
  {
  }

  /** An object whose attributes live in a dictionary. */
  class State {
    var attrs: map<string, Json>

    /** Starts from the given dictionary, or from an empty one for `None`. */
    constructor (state: Option<map<string, Json>>)
      ensures attrs == (if state.None? then map[] else state.value)
    {
      attrs := if state.None? then map[] else state.value;
    }

    /** `state.key = value`: binds `key`; every other key keeps its value. */
    method SetAttr(key: string, value: Json)
      modifies this
      ensures attrs == old(attrs)[key := value]
      ensures forall k :: k != key ==> (k in attrs <==> k in old(attrs))
      ensures forall k :: k != key && k in attrs ==> attrs[k] == old(attrs)[k]
    {
      attrs := attrs[key := value];
    }

    /** `state.key`: the bound value, or an AttributeError naming the key. */
    method GetAttr(key: string) returns (r: Result<Json, PyError>)
      ensures key in attrs ==> r == Ok(attrs[key])
      ensures key !in attrs ==> r == Err(AttributeError(NoAttributeMessage(key)))
    {
      if key in attrs {
        r := Ok(attrs[key]);
      } else {
        r := Err(AttributeError(NoAttributeMessage(key)));
      }
    }

    /** `del state.key`: removes exactly `key`, or raises KeyError and
        changes nothing when it is not bound. */
    method DelAttr(key: string) returns (r: Result<(), PyError>)
      modifies this
      ensures key in old(attrs) ==> r == Ok(()) && attrs == old(attrs) - {key}
      ensures key !in old(attrs) ==> r == Err(KeyError) && attrs == old(attrs)
    {
      if key in attrs {
        attrs := attrs - {key};
        r := Ok(());
      } else {
        r := Err(KeyError);
      }
    }
  }

  /** A fresh store reads back what was set, and after deletion reports the
      attribute missing; deleting it again raises KeyError. */
  method StateRoundTrip(key: string, value: Json, other: string, otherValue: Json)
    returns (got: Result<Json, PyError>, gotOther: Result<Json, PyError>,
             afterDelete: Result<Json, PyError>, secondDelete: Result<(), PyError>)
    requires other != key
    ensures got == Ok(value)
    ensures gotOther == Ok(otherValue)
    ensures afterDelete == Err(AttributeError(NoAttributeMessage(key)))
    ensures secondDelete == Err(KeyError)
  {
    var s := new State(None);
    s.SetAttr(other, otherValue);
    s.SetAttr(key, value);
    got := s.GetAttr(key);
    var deleted := s.DelAttr(key);
    gotOther := s.GetAttr(other);
    afterDelete := s.GetAttr(key);
    secondDelete := s.DelAttr(key);
  }

  // ---------------------------------------------------------------------
  // Time-zone offsets and the clock lines
  // ---------------------------------------------------------------------

  /** The zones of the offset table. */
  datatype Zone = UTC | ET | CT | MT | PT | GMT | CET | JST | AET

  /** The zone's key in the offset table, which is also how its line is
      labelled. */
  function Name(z: Zone): string {
    match z
    case UTC => "UTC"
    case ET => "Eastern Time (ET)"
    case CT => "Central Time (CT)"
    case MT => "Mountain Time (MT)"
    case PT => "Pacific Time (PT)"
    case GMT => "GMT"
    case CET => "Central European Time (CET)"
    case JST => "Japan Standard Time (JST)"
    case AET => "Australian Eastern Time (AET)"
  }

  /** The zones in the order the offset dictionary is written, which is the
      order its items are listed in. */
  const ZoneOrder: seq<Zone> := [UTC, ET, CT, MT, PT, GMT, CET, JST, AET]

  /** The listing order holds every zone exactly once. */
  lemma ZoneOrderListsEveryZone(z: Zone)
    ensures z in ZoneOrder
    ensures |ZoneOrder| == 9
    ensures forall i, j :: 0 <= i < j < |ZoneOrder| ==> ZoneOrder[i] != ZoneOrder[j]
  {
    match z
    case UTC => assert ZoneOrder[0] == z;
    case ET => assert ZoneOrder[1] == z;
    case CT => assert ZoneOrder[2] == z;
    case MT => assert ZoneOrder[3] == z;
    case PT => assert ZoneOrder[4] == z;
    case GMT => assert ZoneOrder[5] == z;
    case CET => assert ZoneOrder[6] == z;
    case JST => assert ZoneOrder[7] == z;
    case AET => assert ZoneOrder[8] == z;
  }

  /** US summer time: of the calendar months, only December, January and
      February are on standard time. */
  predicate IsDstUs(month: int): (r: bool)
    ensures 1 <= month <= 12 ==> (r <==> month !in {12, 1, 2})
  {
    3 <= month <= 11
  }

  /** European summer time: November to February are on standard time. */
  predicate IsDstEu(month: int): (r: bool)
    ensures 1 <= month <= 12 ==> (r <==> month !in {11, 12, 1, 2})
  {
    3 <= month <= 10
  }

  /** Southern-hemisphere summer time: May to September are on standard
      time. */
  predicate IsDstAu(month: int): (r: bool)
    ensures 1 <= month <= 12 ==> (r <==> month !in {5, 6, 7, 8, 9})
  {
    month <= 4 || month >= 10
  }

  /** The offsets the dictionary is written with, before any adjustment:
      west of UTC exactly for the four American zones. */
  function StandardOffset(z: Zone): (r: int)
    ensures r < 0 <==> z in {ET, CT, MT, PT}
    ensures -8 <= r <= 10
  {
    match z
    case UTC => 0
    case ET => -5
    case CT => -6
    case MT => -7
    case PT => -8
    case GMT => 0
    case CET => 1
    case JST => 9
    case AET => 10
  }

  /** Each zone's offset in hours from UTC in a given month, as standard or
      summer time: at most one hour ahead of the written offset, and never
      moved for UTC, GMT and JST. */
  function ExpectedOffset(z: Zone, month: int): (r: int)
    ensures r == StandardOffset(z) || r == StandardOffset(z) + 1
    ensures z == UTC || z == GMT || z == JST ==> r == StandardOffset(z)
  {
    match z
    case UTC => 0
    case ET => if 3 <= month <= 11 then -4 else -5
    case CT => if 3 <= month <= 11 then -5 else -6
    case MT => if 3 <= month <= 11 then -6 else -7
    case PT => if 3 <= month <= 11 then -7 else -8
    case GMT => 0
    case CET => if 3 <= month <= 10 then 2 else 1
    case JST => 9
    case AET => if 4 < month < 10 then 10 else 11
  }

  /** The offset table: standard offsets, each daylight-saving zone moved
      forward one hour in its summer months. */
  method ZoneOffsets(month: int) returns (offsets: map<Zone, int>)
    ensures forall z: Zone :: z in offsets && offsets[z] == ExpectedOffset(z, month)
  {
    offsets := map[UTC := 0, ET := -5, CT := -6, MT := -7, PT := -8, GMT := 0, CET := 1, JST := 9, AET := 10];
    if IsDstUs(month) {
      offsets := offsets[ET := offsets[ET] + 1];
      offsets := offsets[CT := offsets[CT] + 1];
      offsets := offsets[MT := offsets[MT] + 1];
      offsets := offsets[PT := offsets[PT] + 1];
    }
    if IsDstEu(month) {
      offsets := offsets[CET := offsets[CET] + 1];
    }
    if IsDstAu(month) {
      offsets := offsets[AET := offsets[AET] + 1];
    }
    forall z: Zone ensures z in offsets && offsets[z] == ExpectedOffset(z, month) {
      match z
      case UTC =>
      case ET =>
      case CT =>
      case MT =>
      case PT =>
      case GMT =>
      case CET =>
      case JST =>
      case AET =>
    }
  }

  /** The written offset is the zone's winter offset: January for the
      northern zones, July for Australia. */
  lemma StandardOffsetIsWinterOffset(z: Zone)
    ensures StandardOffset(z) == ExpectedOffset(z, if z == AET then 7 else 1)
  {
  }

  /** UTC, GMT and JST never move; the US zones keep their one-hour spacing
      in every month; each summer-time zone moves by exactly one hour. */
  lemma OffsetsFixedAndSpaced(month: int)
    ensures ExpectedOffset(UTC, month) == 0 && ExpectedOffset(GMT, month) == 0
    ensures ExpectedOffset(JST, month) == 9
    ensures ExpectedOffset(ET, month) == ExpectedOffset(CT, month) + 1
                                     == ExpectedOffset(MT, month) + 2
                                     == ExpectedOffset(PT, month) + 3
    ensures ExpectedOffset(ET, month) == (if IsDstUs(month) then -4 else -5)
    ensures ExpectedOffset(CET, month) == (if IsDstEu(month) then 2 else 1)
    ensures ExpectedOffset(AET, month) == (if IsDstAu(month) then 11 else 10)
  {
  }

  predicate StartsWith(s: string, prefix: string) {
    |prefix| <= |s| && s[..|prefix|] == prefix
  }

  /** A clock line as the code writes it: `utc_now.replace(tzinfo=...)`
      relabels the UTC reading without moving it, and the format prints no
      offset, so the line shows the UTC reading whatever the offset.
      `utcNow` is the reading in seconds; `format` renders a reading as
      "%Y-%m-%d %H:%M:%S". */
  function ZoneLineAsWritten(z: Zone, offset: int, utcNow: int, format: int -> string): (line: string)
    ensures StartsWith(line, Name(z) + ": ")
    ensures line[|Name(z) + ": "|..] == format(utcNow)
  {
    var prefix := Name(z) + ": ";
    assert (prefix + format(utcNow))[..|prefix|] == prefix;
    prefix + format(utcNow)
  }

  /** As written, the offset has no effect on the line. */
  lemma AsWrittenIgnoresOffset(z: Zone, a: int, b: int, utcNow: int, format: int -> string)
    ensures ZoneLineAsWritten(z, a, utcNow, format) == ZoneLineAsWritten(z, b, utcNow, format)
  {
  }

  /** A clock line showing the zone's own reading: the UTC reading moved by
      the offset in hours. */
  function ZoneLine(z: Zone, offset: int, utcNow: int, format: int -> string): (line: string)
    ensures StartsWith(line, Name(z) + ": ")
    ensures line[|Name(z) + ": "|..] == format(utcNow + 3600 * offset)
  {
    var prefix := Name(z) + ": ";
    assert (prefix + format(utcNow + 3600 * offset))[..|prefix|] == prefix;
    prefix + format(utcNow + 3600 * offset)
  }

  /** With a formatter that tells readings apart, zones with different
      offsets show different readings. */
  lemma ZoneLinesDifferWithOffset(z: Zone, a: int, b: int, utcNow: int, format: int -> string)
    requires format(utcNow + 3600 * a) != format(utcNow + 3600 * b)
    ensures ZoneLine(z, a, utcNow, format) != ZoneLine(z, b, utcNow, format)
  {
  }

  /** A formatter that tells midnight UTC on 1 January 1970 apart from every
      other reading. */
  function EpochFormat(t: int): string {
    if t == 0 then "1970-01-01 00:00:00" else "1969-12-31 19:00:00"
  }

  /** At midnight UTC in January the Eastern line shows midnight, where the
      Eastern reading is 19:00 the previous evening. */
  lemma AsWrittenEasternShowsUtc()
    ensures ZoneLineAsWritten(ET, ExpectedOffset(ET, 1), 0, EpochFormat)
            == Name(ET) + ": " + "1970-01-01 00:00:00"
    ensures ZoneLine(ET, ExpectedOffset(ET, 1), 0, EpochFormat)
            == Name(ET) + ": " + "1969-12-31 19:00:00"
  {
    assert ExpectedOffset(ET, 1) == -5;
    assert EpochFormat(0 + 3600 * -5) == "1969-12-31 19:00:00";
  }

  // ---------------------------------------------------------------------
  // The clock text
  // ---------------------------------------------------------------------

  /** One line per zone of the table, in table order, each the zone's label,
      ": " and the formatted reading given for that zone. */
  function LinesFor(readings: seq<int>, format: int -> string): (lines: seq<string>)
    requires |readings| == |ZoneOrder|
    ensures |lines| == |ZoneOrder|
  {
    seq(|ZoneOrder|, k requires 0 <= k < |ZoneOrder| => Name(ZoneOrder[k]) + ": " + format(readings[k]))
  }

  /** The readings the code prints: the UTC reading for every zone. */
  function AsWrittenReadings(utcNow: int): (readings: seq<int>)
    ensures |readings| == |ZoneOrder|
  {
    seq(|ZoneOrder|, k => utcNow)
  }

  /** Each zone's local reading: the UTC reading moved by its offset. */
  function LocalReadings(month: int, utcNow: int): (readings: seq<int>)
    ensures |readings| == |ZoneOrder|
  {
    seq(|ZoneOrder|, k requires 0 <= k < |ZoneOrder| => utcNow + 3600 * ExpectedOffset(ZoneOrder[k], month))
  }

  /** The nine clock lines of a month as the code writes them. */
  function ClockLines(month: int, utcNow: int, format: int -> string): (lines: seq<string>)
    ensures |lines| == |ZoneOrder|
    ensures forall k :: 0 <= k < |ZoneOrder| ==>
              lines[k] == ZoneLineAsWritten(ZoneOrder[k], ExpectedOffset(ZoneOrder[k], month), utcNow, format)
  {
    LinesFor(AsWrittenReadings(utcNow), format)
  }

  /** The nine clock lines of a month with each zone's own reading. */
  function CorrectedClockLines(month: int, utcNow: int, format: int -> string): (lines: seq<string>)
    ensures |lines| == |ZoneOrder|
    ensures forall k :: 0 <= k < |ZoneOrder| ==>
              lines[k] == ZoneLine(ZoneOrder[k], ExpectedOffset(ZoneOrder[k], month), utcNow, format)
  {
    LinesFor(LocalReadings(month, utcNow), format)
  }

  /** `get_formatted_times` as written: one line per zone of the offset
      table, in order, joined by newlines. The clock reading and the date
      formatter are inputs. */
  method FormattedTimes(month: int, utcNow: int, format: int -> string) returns (text: string)
    ensures text == JoinWith("\n", ClockLines(month, utcNow, format))
  {
    var offsets := ZoneOffsets(month);
    ghost var lines := ClockLines(month, utcNow, format);
    var timeStrings: seq<string> := [];
    for i := 0 to |ZoneOrder|
      invariant timeStrings == lines[..i]
    {
      var z := ZoneOrder[i];
      assert offsets[z] == ExpectedOffset(z, month);
      assert lines[..i + 1] == lines[..i] + [lines[i]];
      timeStrings := timeStrings + [ZoneLineAsWritten(z, offsets[z], utcNow, format)];
    }
    assert lines[..|ZoneOrder|] == lines;
    text := JoinWith("\n", timeStrings);
  }

  /** The same loop with each line showing its zone's own reading. */
  method FormattedTimesCorrected(month: int, utcNow: int, format: int -> string) returns (text: string)
    ensures text == JoinWith("\n", CorrectedClockLines(month, utcNow, format))
  {
    var offsets := ZoneOffsets(month);
    ghost var lines := CorrectedClockLines(month, utcNow, format);
    var timeStrings: seq<string> := [];
    for i := 0 to |ZoneOrder|
      invariant timeStrings == lines[..i]
    {
      var z := ZoneOrder[i];
      assert offsets[z] == ExpectedOffset(z, month);
      assert lines[..i + 1] == lines[..i] + [lines[i]];
      timeStrings := timeStrings + [ZoneLine(z, offsets[z], utcNow, format)];
    }
    assert lines[..|ZoneOrder|] == lines;
    text := JoinWith("\n", timeStrings);
  }

  /** No zone label contains a newline. */
  lemma ZoneNameHasNoNewline(z: Zone)
    ensures '\n' !in Name(z) + ": "
  {
    if z == UTC || z == ET || z == CT {
      NoNewlineInEarlyLabels(z);
    } else if z == MT || z == PT || z == GMT {
      NoNewlineInMiddleLabels(z);
    } else {
      NoNewlineInLateLabels(z);
    }
  }

  lemma NoNewlineInEarlyLabels(z: Zone)
    requires z == UTC || z == ET || z == CT
    ensures '\n' !in Name(z)
  {
  }

  lemma NoNewlineInMiddleLabels(z: Zone)
    requires z == MT || z == PT || z == GMT
    ensures '\n' !in Name(z)
  {
  }

  lemma NoNewlineInLateLabels(z: Zone)
    requires z == CET || z == JST || z == AET
    ensures '\n' !in Name(z)
  {
  }

  /** A clock line contains no newline when its formatted reading has none. */
  lemma ClockLineHasNoNewline(readings: seq<int>, format: int -> string, k: nat)
    requires |readings| == |ZoneOrder| && k < |ZoneOrder|
    requires '\n' !in format(readings[k])
    ensures '\n' !in LinesFor(readings, format)[k]
  {
    var z := ZoneOrder[k];
    ZoneNameHasNoNewline(z);
    var prefix := Name(z) + ": ";
    assert LinesFor(readings, format)[k] == prefix + format(readings[k]);
  }

  /** No clock line contains a newline when the formatter prints none. */
  lemma ClockLinesHaveNoNewline(readings: seq<int>, format: int -> string)
    requires |readings| == |ZoneOrder|
    requires forall t :: '\n' !in format(t)
    ensures forall k :: 0 <= k < |ZoneOrder| ==> '\n' !in LinesFor(readings, format)[k]
  {
    forall k | 0 <= k < |ZoneOrder| ensures '\n' !in LinesFor(readings, format)[k] {
      var t: int := readings[k];
      assert '\n' !in format(t);
      ClockLineHasNoNewline(readings, format, k);
    }
  }

  /** The k-th clock line starts with the k-th zone's label and ": ". */
  lemma ClockLineLabels(readings: seq<int>, format: int -> string)
    requires |readings| == |ZoneOrder|
    ensures forall k :: 0 <= k < |ZoneOrder| ==> StartsWith(LinesFor(readings, format)[k], Name(ZoneOrder[k]) + ": ")
  {
    var lines := LinesFor(readings, format);
    forall k | 0 <= k < |ZoneOrder| ensures StartsWith(lines[k], Name(ZoneOrder[k]) + ": ") {
      var prefix := Name(ZoneOrder[k]) + ": ";
      assert lines[k] == prefix + format(readings[k]);
    }
  }

  /** When the formatter prints no newline, splitting the text at newlines
      gives back the nine clock lines. */
  lemma ClockTextHasOneLinePerZone(readings: seq<int>, format: int -> string)
    requires |readings| == |ZoneOrder|
    requires forall t :: '\n' !in format(t)
    ensures Split(JoinWith("\n", LinesFor(readings, format)), '\n') == LinesFor(readings, format)
    ensures |LinesFor(readings, format)| == 9
  {
    ClockLinesHaveNoNewline(readings, format);
    SplitJoin(LinesFor(readings, format), '\n');
  }

  lemma EpochFormatHasNoNewline()
    ensures forall t :: '\n' !in EpochFormat(t)
  {
    assert '\n' !in "1970-01-01 00:00:00";
    assert '\n' !in "1969-12-31 19:00:00";
  }

  /** At midnight UTC in January, the Eastern line the code writes differs
      from the line of the Eastern local reading. */
  lemma AsWrittenEasternLineDiffers()
    ensures ClockLines(1, 0, EpochFormat)[1] != CorrectedClockLines(1, 0, EpochFormat)[1]
  {
    var p := Name(ET) + ": ";
    var a := ClockLines(1, 0, EpochFormat)[1];
    var b := CorrectedClockLines(1, 0, EpochFormat)[1];
    assert ExpectedOffset(ET, 1) == -5;
    assert a[|p|..] == EpochFormat(0);
    assert b[|p|..] == EpochFormat(-18000);
    assert EpochFormat(0)[3] != EpochFormat(-18000)[3];
  }

  /** The whole text the code writes at midnight UTC in January differs
      from the text of local readings. */
  lemma AsWrittenTextDiffers()
    ensures JoinWith("\n", ClockLines(1, 0, EpochFormat)) != JoinWith("\n", CorrectedClockLines(1, 0, EpochFormat))
  {
    EpochFormatHasNoNewline();
    ClockTextHasOneLinePerZone(AsWrittenReadings(0), EpochFormat);
    ClockTextHasOneLinePerZone(LocalReadings(1, 0), EpochFormat);
    AsWrittenEasternLineDiffers();
  }
}
