/**
  The label popup of a circle (`_createPopUpContent`) and the recovery of a
  label from that popup's HTML text (`_recoverStateBeforeDeletion`): a string
  round trip. Both generations of the service share this code; they differ
  only in the element ids and in the name of the global instance the inline
  handlers call.
 */
module Popup {
  import opened Wrappers
  import opened Text

  /** Which copy of the service builds the popup. */
  datatype Generation = Current | Legacy

  /** The `distance` argument of `_createPopUpContent`: absent, the literal `false`, or a number of metres. */
  datatype DistanceArg = Undefined | False | Metres(value: real)

  /** JavaScript truthiness of the argument (NaN is not modelled). */
  predicate Truthy(distance: DistanceArg)
  {
    distance.Metres? && distance.value != 0.0
  }

  // ---------------------------------------------------------------------------
  // Number.prototype.toFixed on exact values
  // ---------------------------------------------------------------------------

  function Pow10(d: nat): (p: nat)
    ensures p >= 1
  {
    if d == 0 then 1 else 10 * Pow10(d - 1)
  }

  /** The integer nearest to `y`, the larger one on a tie (the choice `toFixed` makes). */
  function RoundHalfUp(y: real): (n: int)
    ensures n as real - 0.5 <= y < n as real + 0.5
  {
    (y + 0.5).Floor
  }

  function Zeros(n: nat): string
  {
    seq(n, _ => '0')
  }

  /**
    `s` left-padded with zeros to at least `width` characters: the result is `s`
    when it is long enough, otherwise `width` long, ending in `s`, zeros before.
   */
  function PadZeros(s: string, width: nat): (r: string)
    ensures |r| == if |s| < width then width else |s|
    ensures r[|r| - |s|..] == s
    ensures forall i | 0 <= i < |r| - |s| :: r[i] == '0'
  {
    Zeros(if |s| < width then width - |s| else 0) + s
  }

  /**
    The decimal text of `n / 10^digits` with exactly `digits` digits after the
    point: the digits of `n`, padded so that one digit stays before the point.
   */
  function FixedText(n: nat, digits: nat): string
  {
    if digits == 0 then NatText(n)
    else
      var t := PadZeros(NatText(n), digits + 1);
      t[..|t| - digits] + "." + t[|t| - digits..]
  }

  /**
    `x.toFixed(digits)` for `|x| < 1e21`: a minus sign for a negative value,
    then the nearest multiple of `10^-digits`, ties rounded up.
   */
  function ToFixed(x: real, digits: nat): string
    decreases if x < 0.0 then 1 else 0
  {
    if x < 0.0 then "-" + ToFixed(-x, digits)
    else
      assert RoundHalfUp(x * Pow10(digits) as real) >= 0;
      FixedText(RoundHalfUp(x * Pow10(digits) as real) as nat, digits)
  }

  /**
    The distance line: below one kilometre the radius in whole metres with
    "m", otherwise in kilometres with two decimals and "km".
   */
  function RadiusText(metres: real): string
  {
    var km := metres / 1000.0;
    if km < 1.0 then ToFixed(km * 1000.0, 0) + " m" else ToFixed(km, 2) + " km"
  }

  /**
    Below 1000 m the radius is rounded to whole metres; from 1000 m on it is
    rounded to tens of metres and shown as kilometres. The unit is chosen before
    rounding, so 999.6 m reads "1000 m".
   */
  lemma RadiusTextUnits(metres: real)
    requires metres >= 0.0
    ensures metres < 1000.0 ==> RadiusText(metres) == FixedText(RoundHalfUp(metres) as nat, 0) + " m"
    ensures metres >= 1000.0 ==> RadiusText(metres) == FixedText(RoundHalfUp(metres / 10.0) as nat, 2) + " km"
  {
    var km := metres / 1000.0;
    assert km * 1000.0 == metres;
    assert km * 100.0 == metres / 10.0;
    assert Pow10(0) == 1 && Pow10(2) == 100;
  }

  lemma RadiusTextMetres()
    ensures RadiusText(450.0) == "450 m"
  {
    RadiusTextUnits(450.0);
    assert RoundHalfUp(450.0) == 450;
    NatTexts();
  }

  lemma RadiusTextKilometres()
    ensures RadiusText(1500.0) == "1.50 km"
  {
    RadiusTextUnits(1500.0);
    assert RoundHalfUp(150.0) == 150;
    NatTexts();
    assert PadZeros("150", 3) == "150";
  }

  /** The unit is chosen before rounding: 999.6 m rounds up to "1000 m", not "1.00 km". */
  lemma RadiusTextRoundsAfterUnit()
    ensures RadiusText(999.6) == "1000 m"
  {
    RadiusTextUnits(999.6);
    assert RoundHalfUp(999.6) == 1000;
    NatTexts();
  }

  lemma NatTexts()
    ensures NatText(450) == "450" && NatText(150) == "150" && NatText(1000) == "1000"
  {
    assert NatText(4) == "4" && NatText(45) == "45";
    assert NatText(1) == "1" && NatText(15) == "15";
    assert NatText(10) == "10" && NatText(100) == "100";
  }

  // ---------------------------------------------------------------------------
  // The popup text
  // ---------------------------------------------------------------------------

  function Indent(n: nat): string
  {
    seq(n, _ => ' ')
  }

  /** The prefix of the label input's element id. */
  function LabelIdPrefix(g: Generation): string
  {
    match g
    case Current => "js-map__custom-zone-label-"
    case Legacy => "custom-zone-label-"
  }

  /** The prefix of the distance element's id. */
  function DistanceIdPrefix(g: Generation): string
  {
    match g
    case Current => "js-map__custom-zone-distance-"
    case Legacy => "custom-zone-distance-"
  }

  /** The global the inline handlers call. */
  function InstanceName(g: Generation): string
  {
    match g
    case Current => "mapServiceInstance"
    case Legacy => "leafletDrawServiceInstance"
  }

  /** `${distance}` inside the inline handler; a number is rendered by the engine (`numberText`). */
  function DistanceToken(distance: DistanceArg, numberText: real -> string): string
  {
    match distance
    case Undefined => "undefined"
    case False => "false"
    case Metres(x) => numberText(x)
  }

  /** The radius the popup shows: the argument when it is truthy, the layer's own radius otherwise. */
  function ShownRadius(distance: DistanceArg, layerRadius: real): real
  {
    if Truthy(distance) then distance.value else layerRadius
  }

  /** What appears between the quotes of the input's `value` attribute, and what recovery looks for. */
  const ValueMarker: string := "value=\""

  /** The opening of the `<input>` element, up to and including the line with the label. */
  function OpeningLines(g: Generation, idText: string, zoneLabel: string): (lines: seq<string>)
    ensures |lines| == 6 && lines[5] == ValueLine(zoneLabel)
  {
    [ "",
      Indent(12) + "<input",
      Indent(16) + "id=\"" + LabelIdPrefix(g) + idText + "\"",
      Indent(16) + "class=\"map__custom-zone-label\"",
      Indent(16) + "type=\"text\"",
      ValueLine(zoneLabel) ]
  }

  /** The rest of the element: its attributes after the value, and the distance `<div>`. */
  function ClosingLines(g: Generation, idText: string, distance: DistanceArg,
                        layerRadius: real, numberText: real -> string): (lines: seq<string>)
    ensures |lines| == 8
  {
    [ Indent(16) + "required",
      Indent(16) + "autocomplete=\"off\"",
      Indent(16) + "maxlength=\"10\"",
      Indent(16) + "onkeyup=\"" + InstanceName(g) + "._onKeyUp(event);\"",
      Indent(16) + "onfocusout=\"" + InstanceName(g) + "._labelArea(" + idText + ", "
        + DistanceToken(distance, numberText) + ", true);\"",
      Indent(12) + ">",
      Indent(12) + "<div id=\"" + DistanceIdPrefix(g) + idText + "\" class=\"map__custom-zone-distance\">"
        + RadiusText(ShownRadius(distance, layerRadius)) + "</div>",
      Indent(8) ]
  }

  /**
    The lines of `_createPopUpContent(id, label, distance)`: the template
    literal opens with a newline, so line 0 is empty, and line 5 holds the label.
   */
  function PopupLines(g: Generation, id: nat, zoneLabel: string, distance: DistanceArg,
                      layerRadius: real, numberText: real -> string): (lines: seq<string>)
    ensures |lines| == 14
  {
    OpeningLines(g, NatText(id), zoneLabel) + ClosingLines(g, NatText(id), distance, layerRadius, numberText)
  }

  /** `_createPopUpContent(id, label, distance)`: the lines joined by newlines. */
  function PopupContent(g: Generation, id: nat, zoneLabel: string, distance: DistanceArg,
                        layerRadius: real, numberText: real -> string): string
  {
    Join(PopupLines(g, id, zoneLabel, distance, layerRadius, numberText), "\n")
  }

  // ---------------------------------------------------------------------------
  // Recovering the label from the popup text
  // ---------------------------------------------------------------------------

  /** The index of the first line that contains `p` (`lines.filter(v => v.indexOf(p) > -1)[0]`). */
  function FirstContaining(lines: seq<string>, p: string): (r: Option<nat>)
    ensures r.Some? ==> r.value < |lines| && Contains(lines[r.value], p)
    ensures r.Some? ==> forall i | 0 <= i < r.value :: !Contains(lines[i], p)
    ensures r.None? ==> forall i | 0 <= i < |lines| :: !Contains(lines[i], p)
  {
    if |lines| == 0 then None
    else if Contains(lines[0], p) then Some(0)
    else
      match FirstContaining(lines[1..], p)
      case None => None
      case Some(i) => Some(i + 1)
  }

  /** `s.replace(p, v)` with a string pattern: only the first occurrence is replaced. */
  function ReplaceFirst(s: string, p: string, v: string): (r: string)
    ensures !Contains(s, p) ==> r == s
    ensures Contains(s, p) ==>
      var i := IndexOf(s, p);
      0 <= i && OccursAt(s, p, i) && (forall k | 0 <= k < i :: !OccursAt(s, p, k))
      && r == s[..i] + v + s[i + |p|..]
  {
    var i := IndexOf(s, p);
    if i < 0 then s else s[..i] + v + s[i + |p|..]
  }

  /** `s.replace(/"$/, '')`: one double quote at the very end is dropped. */
  function StripTrailingQuote(s: string): (r: string)
    ensures |s| > 0 && s[|s| - 1] == '"' ==> r + "\"" == s
    ensures !(|s| > 0 && s[|s| - 1] == '"') ==> r == s
  {
    if |s| > 0 && s[|s| - 1] == '"' then s[..|s| - 1] else s
  }

  /**
    The label `_recoverStateBeforeDeletion` reads back from a popup's text;
    `None` when no line carries the marker, where `undefined.trim()` throws and
    the handler removes the layer instead.
   */
  function RecoverLabel(content: string): Option<string>
  {
    var lines := Split(content, "\n");
    match FirstContaining(lines, ValueMarker)
    case None => None
    case Some(i) => Some(LabelOfLine(lines[i]))
  }

  /** What the handler keeps of the marked line: trimmed, the marker removed, the closing quote dropped. */
  function LabelOfLine(line: string): string
  {
    StripTrailingQuote(ReplaceFirst(Trim(line), ValueMarker, ""))
  }

  /** The line that carries the label: the marker after a 16-space indent, then the label and a closing quote. */
  function ValueLine(zoneLabel: string): (line: string)
    ensures Contains(line, ValueMarker)
  {
    var line := Indent(16) + ValueMarker + zoneLabel + "\"";
    assert line[16..16 + |ValueMarker|] == ValueMarker;
    assert OccursAt(line, ValueMarker, 16);
    line
  }

  /** The value line gives back exactly its label once trimmed, unmarked and unquoted. */
  lemma RecoverValueLine(zoneLabel: string)
    ensures LabelOfLine(ValueLine(zoneLabel)) == zoneLabel
  {
    TrimValueLine(zoneLabel);
    UnmarkValue(zoneLabel);
    var quoted := zoneLabel + "\"";
    assert quoted[..|quoted| - 1] == zoneLabel;
  }

  /** Trimming the value line leaves the attribute itself. */
  lemma TrimValueLine(zoneLabel: string)
    ensures Trim(ValueLine(zoneLabel)) == ValueMarker + zoneLabel + "\""
  {
    var body := ValueMarker + zoneLabel + "\"";
    assert ValueLine(zoneLabel) == Indent(16) + body;
    TrimIndented(16, body);
  }

  /** Removing the marker from the attribute leaves the label and its closing quote. */
  lemma UnmarkValue(zoneLabel: string)
    ensures ReplaceFirst(ValueMarker + zoneLabel + "\"", ValueMarker, "") == zoneLabel + "\""
  {
    var body := ValueMarker + zoneLabel + "\"";
    assert OccursAt(body, ValueMarker, 0) by {
      assert body[..|ValueMarker|] == ValueMarker;
    }
    assert IndexOf(body, ValueMarker) == 0;
    assert body[|ValueMarker|..] == zoneLabel + "\"";
    assert body[..0] + "" + body[|ValueMarker|..] == zoneLabel + "\"";
  }

  /** Lines that carry no `v` do not contain the marker. */
  lemma LinesWithoutMarker(lines: seq<string>, k: nat)
    requires k <= |lines|
    requires forall i | 0 <= i < k :: 'v' !in lines[i]
    ensures forall i | 0 <= i < k :: !Contains(lines[i], ValueMarker)
  {
    forall i | 0 <= i < k ensures !Contains(lines[i], ValueMarker) {
      AvoidsFirstChar(lines[i], ValueMarker);
    }
  }

  /**
    Any text whose line `k` is the first with a `v` and is the value line of
    `zoneLabel` gives that label back.
   */
  lemma RecoverFromLines(lines: seq<string>, k: nat, zoneLabel: string)
    requires k + 1 < |lines| && lines[k] == ValueLine(zoneLabel) && '\n' !in zoneLabel
    requires forall i | 0 <= i < k :: '\n' !in lines[i] && 'v' !in lines[i]
    ensures RecoverLabel(Join(lines, "\n")) == Some(zoneLabel)
  {
    assert '\n' !in lines[k];
    SplitJoinLeadingLines(lines, k);
    var parts := Split(Join(lines, "\n"), "\n");
    forall i | 0 <= i <= k ensures parts[i] == lines[i] {
      assert parts[..k + 1][i] == lines[..k + 1][i];
    }
    LinesWithoutMarker(parts, k);
    FirstFromPrefix(parts, k, ValueMarker);
    RecoverValueLine(zoneLabel);
  }

  /** None of `s`'s characters is a newline or a `v`. */
  predicate Plain(s: string)
  {
    '\n' !in s && 'v' !in s
  }

  /** A concatenation of plain strings is plain. */
  lemma PlainConcat(a: string, b: string)
    requires Plain(a) && Plain(b)
    ensures Plain(a + b)
  {
  }

  /** The digits of an id are plain. */
  lemma PlainDigits(ds: string)
    requires forall k | 0 <= k < |ds| :: IsDigit(ds[k])
    ensures Plain(ds)
  {
    forall k | 0 <= k < |ds| ensures ds[k] != 'v' && ds[k] != '\n' {
      assert IsDigit(ds[k]);
    }
  }

  lemma PlainIndent(n: nat)
    ensures Plain(Indent(n))
  {
    assert forall k | 0 <= k < n :: Indent(n)[k] == ' ';
  }

  lemma PlainTags()
    ensures Plain("<input") && Plain("id=\"") && Plain("\"")
  {
  }

  lemma PlainType()
    ensures Plain("type=\"text\"")
  {
  }

  lemma PlainClass()
    ensures Plain("class=\"map__custom-zone-label\"")
  {
  }

  lemma PlainLabelIdPrefix(g: Generation)
    ensures Plain(LabelIdPrefix(g))
  {
    if g.Current? {
      assert Plain("js-map__custom-zone-label-");
    } else {
      assert Plain("custom-zone-label-");
    }
  }

  /** The id line is plain. */
  lemma PlainIdLine(g: Generation, idText: string)
    requires Plain(idText)
    ensures Plain(Indent(16) + "id=\"" + LabelIdPrefix(g) + idText + "\"")
  {
    PlainIndent(16);
    PlainTags();
    PlainLabelIdPrefix(g);
    PlainConcat(Indent(16), "id=\"");
    PlainConcat(Indent(16) + "id=\"", LabelIdPrefix(g));
    PlainConcat(Indent(16) + "id=\"" + LabelIdPrefix(g), idText);
    PlainConcat(Indent(16) + "id=\"" + LabelIdPrefix(g) + idText, "\"");
  }

  /** The popup's first five lines are free of newlines and of `v`. */
  lemma OpeningLinesFree(g: Generation, idText: string, zoneLabel: string)
    requires forall k | 0 <= k < |idText| :: IsDigit(idText[k])
    ensures forall i | 0 <= i < 5 ::
              '\n' !in OpeningLines(g, idText, zoneLabel)[i] && 'v' !in OpeningLines(g, idText, zoneLabel)[i]
  {
    var lines := OpeningLines(g, idText, zoneLabel);
    PlainDigits(idText);
    PlainIdLine(g, idText);
    PlainIndent(12);
    PlainIndent(16);
    PlainTags();
    PlainType();
    PlainClass();
    PlainConcat(Indent(12), "<input");
    PlainConcat(Indent(16), "class=\"map__custom-zone-label\"");
    PlainConcat(Indent(16), "type=\"text\"");
    assert Plain(lines[0]) && Plain(lines[1]) && Plain(lines[2]) && Plain(lines[3]) && Plain(lines[4]);
  }

  /**
    Recovery gives back the label the popup was built with, whatever the id,
    distance and radius, provided the label holds no newline.
   */
  lemma RecoverLabelRoundTrip(g: Generation, id: nat, zoneLabel: string, distance: DistanceArg,
                              layerRadius: real, numberText: real -> string)
    requires '\n' !in zoneLabel
    ensures RecoverLabel(PopupContent(g, id, zoneLabel, distance, layerRadius, numberText)) == Some(zoneLabel)
  {
    var opening := OpeningLines(g, NatText(id), zoneLabel);
    var lines := PopupLines(g, id, zoneLabel, distance, layerRadius, numberText);
    OpeningLinesFree(g, NatText(id), zoneLabel);
    assert forall i | 0 <= i < 6 :: lines[i] == opening[i];
    RecoverFromLines(lines, 5, zoneLabel);
  }

  /** When line `k` is the first to contain `p`, the search stops there. */
  lemma {:induction false} FirstFromPrefix(lines: seq<string>, k: nat, p: string)
    requires k < |lines| && Contains(lines[k], p)
    requires forall i | 0 <= i < k :: !Contains(lines[i], p)
    ensures FirstContaining(lines, p) == Some(k)
    decreases k
  {
    if k > 0 {
      FirstFromPrefix(lines[1..], k - 1, p);
    }
  }

  /** Text with no `v` at all (a foreign popup) yields no label, so the layer is removed. */
  lemma RecoverFromTextWithoutMarker(content: string)
    requires 'v' !in content
    ensures RecoverLabel(content) == None
  {
    var lines := Split(content, "\n");
    SplitPartsAvoidChar(content, "\n", 'v');
    forall i | 0 <= i < |lines| ensures !Contains(lines[i], ValueMarker) {
      AvoidsFirstChar(lines[i], ValueMarker);
    }
  }
}
