/** The component info string that each registered geometry carries, and the
    info panel's reading of it: the panel splits the string into lines, takes
    for each field the first line that starts with the field's key, and shows
    the text between the first and the second ':' of that line, trimmed, or
    "--" when no line has the key. The position line is shown whole. */
module InfoText {
  import opened Wrappers
  import opened Text
  import opened PcbModel

  /** The key a field line starts with: its name and a colon. */
  function Key(name: string): string {
    name + ":"
  }

  /** A field line as the scene builders write it: `<name>: <value>`. */
  function Tagged(name: string, value: string): string {
    Key(name) + " " + value
  }

  /** `<width>x<height>x<thickness>`, each number as `format` writes it. */
  function DimensionsText(d: Dimensions, format: real -> string): string {
    format(d.width) + "x" + format(d.height) + "x" + format(d.thickness)
  }

  /** The position line of the full build: `X=<x>, Y=<y> Rotation=<rotation>`. */
  function DrawPositionLine(c: Component, format: real -> string): string {
    "X=" + format(c.x) + ", Y=" + format(c.y) + " Rotation=" + IntToText(c.rotation)
  }

  /** The position line of the offset re-layout: the shifted coordinates,
      z included: `X=<x>, Y=<y>, Z=<z>, Rotation=<rotation>`. A `float`
      coordinate plus a `double` offset is a `double`, so the shifted
      coordinates are written by `formatDouble`, not by the `float` formatter. */
  function OffsetPositionLine(c: Component, dx: real, dy: real, dz: real, formatDouble: real -> string): string {
    "X=" + formatDouble(c.x + dx) + ", Y=" + formatDouble(c.y + dy) + ", Z=" + formatDouble(c.z + dz)
    + ", Rotation=" + IntToText(c.rotation)
  }

  /** The eleven lines of an info string, in the order both builders write them. */
  function InfoLines(c: Component, positionLine: string, format: real -> string): seq<string> {
    [Tagged("Location", c.location),
     Tagged("Type", c.kind),
     positionLine,
     Tagged("Face", c.face),
     Tagged("KDTEC P/N", c.kdtecPN),
     Tagged("Customer P/N", c.customerPN),
     Tagged("Maker P/N", c.makerPN),
     Tagged("Description", c.description),
     Tagged("MakerName", c.makerName),
     Tagged("Process", c.process),
     Tagged("Dimensions", DimensionsText(c.dimensions, format))]
  }

  /** The info string: the lines joined by '\n', with none after the last. */
  function Info(c: Component, positionLine: string, format: real -> string): string {
    Join(InfoLines(c, positionLine, format), '\n')
  }

  /** The info string the full build records for a component. */
  function DrawInfo(c: Component, format: real -> string): string {
    Info(c, DrawPositionLine(c, format), format)
  }

  /** The info string the offset re-layout records for a component: the
      shifted coordinates as doubles, the dimensions still as floats. */
  function OffsetInfo(c: Component, dx: real, dy: real, dz: real,
                      format: real -> string, formatDouble: real -> string): string {
    Info(c, OffsetPositionLine(c, dx, dy, dz, formatDouble), format)
  }

  /** The eleven text fields of the info panel. */
  datatype Panel = Panel(
    location: string,
    kind: string,
    position: string,
    face: string,
    kdtecPN: string,
    customerPN: string,
    makerPN: string,
    description: string,
    makerName: string,
    process: string,
    dimensions: string)

  /** The text a field shows when there is nothing to show. */
  const Placeholder := "--"

  /** The panel with every field at the placeholder. */
  function ClearedPanel(): Panel {
    Panel(Placeholder, Placeholder, Placeholder, Placeholder, Placeholder, Placeholder,
          Placeholder, Placeholder, Placeholder, Placeholder, Placeholder)
  }

  /** `lines.FirstOrDefault(l => l.StartsWith(p))`. */
  function FirstWithPrefix(lines: seq<string>, p: string): (r: Option<string>)
    ensures r.Some? ==> exists k :: 0 <= k < |lines| && lines[k] == r.value && StartsWith(r.value, p)
                                    && forall j :: 0 <= j < k ==> !StartsWith(lines[j], p)
    ensures r.None? <==> forall i :: 0 <= i < |lines| ==> !StartsWith(lines[i], p)
  {
    if lines == [] then None
    else if StartsWith(lines[0], p) then Some(lines[0])
    else
      var rest := FirstWithPrefix(lines[1..], p);
      assert rest.Some? ==> exists k :: 0 <= k < |lines| && lines[k] == rest.value
                                    && forall j :: 0 <= j < k ==> !StartsWith(lines[j], p) by {
        if rest.Some? {
          var k :| 0 <= k < |lines| - 1 && lines[1..][k] == rest.value
                   && forall j :: 0 <= j < k ==> !StartsWith(lines[1..][j], p);
          assert lines[k + 1] == rest.value;
          assert forall j :: 0 <= j < k + 1 ==> !StartsWith(lines[j], p) by {
            forall j | 0 <= j < k + 1 ensures !StartsWith(lines[j], p) {
              if j > 0 { assert lines[j] == lines[1..][j - 1]; }
            }
          }
        }
      }
      rest
  }

  /** A field read by key: the text after the first ':' of the first line
      with that key, up to the next ':', trimmed; the placeholder when none. */
  function FieldValue(lines: seq<string>, name: string): string {
    match FirstWithPrefix(lines, Key(name))
    case None => Placeholder
    case Some(line) =>
      assert line[|name|] == ':' by { assert line[..|Key(name)|] == Key(name); }
      Trim(Split(line, ':')[1])
  }

  /** A line read whole by prefix, trimmed; the placeholder when none. */
  function LineValue(lines: seq<string>, p: string): string {
    match FirstWithPrefix(lines, p)
    case None => Placeholder
    case Some(line) => Trim(line)
  }

  /** What the panel shows for an info string. */
  function PanelOf(info: string): Panel {
    var lines := Split(info, '\n');
    Panel(FieldValue(lines, "Location"),
          FieldValue(lines, "Type"),
          LineValue(lines, "X="),
          FieldValue(lines, "Face"),
          FieldValue(lines, "KDTEC P/N"),
          FieldValue(lines, "Customer P/N"),
          FieldValue(lines, "Maker P/N"),
          FieldValue(lines, "Description"),
          FieldValue(lines, "MakerName"),
          FieldValue(lines, "Process"),
          FieldValue(lines, "Dimensions"))
  }

  // ---------------------------------------------------------------------------
  // Lemmas
  // ---------------------------------------------------------------------------

  /** Text that can sit in one field of one line: no ':' and no '\n'. */
  predicate Plain(s: string) {
    ':' !in s && '\n' !in s
  }

  /** The first line with a prefix is the one at `k` when no earlier line has it. */
  lemma {:induction false} FirstWithPrefixAt(lines: seq<string>, p: string, k: nat)
    requires k < |lines| && StartsWith(lines[k], p)
    requires forall j :: 0 <= j < k ==> !StartsWith(lines[j], p)
    ensures FirstWithPrefix(lines, p) == Some(lines[k])
    decreases k
  {
    if k > 0 {
      FirstWithPrefixAt(lines[1..], p, k - 1);
    }
  }

  /** A tagged line starts with its own key. */
  lemma TaggedHasKey(name: string, value: string)
    ensures StartsWith(Tagged(name, value), Key(name))
  {
    assert (Key(name) + " " + value)[..|Key(name)|] == Key(name);
  }

  /** A tagged line does not start with a key whose name disagrees with its own at `i`. */
  lemma TaggedMismatch(name: string, value: string, other: string, i: nat)
    requires i < |name| && i < |other| && name[i] != other[i]
    ensures !StartsWith(Tagged(name, value), Key(other))
  {
    MismatchAt(Tagged(name, value), Key(other), i);
  }

  /** A field's value comes back from its tagged line, trimmed, when it holds no ':'. */
  lemma FieldOfTagged(name: string, value: string)
    requires ':' !in name && ':' !in value
    ensures |Split(Tagged(name, value), ':')| >= 2
    ensures Trim(Split(Tagged(name, value), ':')[1]) == Trim(value)
  {
    assert Tagged(name, value) == name + [':'] + (" " + value);
    SplitAtSeparator(name, ':', " " + value);
    SplitJoin([" " + value], ':');
    TrimLeadingSpace(value);
  }

  /** The info lines hold no line break when the fields and the position line hold none. */
  lemma InfoLinesSplit(c: Component, positionLine: string, format: real -> string)
    requires '\n' !in c.location && '\n' !in c.kind && '\n' !in c.face && '\n' !in c.kdtecPN
    requires '\n' !in c.customerPN && '\n' !in c.makerPN && '\n' !in c.description
    requires '\n' !in c.makerName && '\n' !in c.process
    requires '\n' !in DimensionsText(c.dimensions, format) && '\n' !in positionLine
    ensures Split(Info(c, positionLine, format), '\n') == InfoLines(c, positionLine, format)
  {
    var lines := InfoLines(c, positionLine, format);
    assert forall i :: 0 <= i < |lines| ==> '\n' !in lines[i];
    SplitJoin(lines, '\n');
  }

  /** The names of the eleven lines, the position line's "X=" in its place. */
  const LineNames := ["Location", "Type", "X=", "Face", "KDTEC P/N", "Customer P/N", "Maker P/N",
                      "Description", "MakerName", "Process", "Dimensions"]

  /** The text each line carries after its key. */
  function LineTexts(c: Component, positionLine: string, format: real -> string): seq<string> {
    [c.location, c.kind, positionLine, c.face, c.kdtecPN, c.customerPN, c.makerPN,
     c.description, c.makerName, c.process, DimensionsText(c.dimensions, format)]
  }

  /** The lines are the tagged texts, the position line in third place. */
  lemma InfoLinesTagged(c: Component, positionLine: string, format: real -> string)
    ensures var lines := InfoLines(c, positionLine, format);
      && |lines| == 11 && lines[2] == positionLine
      && forall j :: 0 <= j < 11 && j != 2 ==> lines[j] == Tagged(LineNames[j], LineTexts(c, positionLine, format)[j])
  {
  }

  /** Field `k` is read back from its line when every earlier line's name
      disagrees with its name at the index `at` gives for that line. */
  lemma FieldAt(lines: seq<string>, texts: seq<string>, k: nat, at: seq<nat>)
    requires |lines| == 11 && |texts| == 11 && 2 != k < 11
    requires forall j :: 0 <= j < 11 && j != 2 ==> lines[j] == Tagged(LineNames[j], texts[j])
    requires |lines[2]| > 0 && lines[2][0] == 'X' && LineNames[k][0] != 'X'
    requires ':' !in LineNames[k] && ':' !in texts[k]
    requires |at| == k
    requires forall j :: 0 <= j < k && j != 2 ==>
      at[j] < |LineNames[j]| && at[j] < |LineNames[k]| && LineNames[j][at[j]] != LineNames[k][at[j]]
    ensures FieldValue(lines, LineNames[k]) == Trim(texts[k])
  {
    var name := LineNames[k];
    forall j | 0 <= j < k ensures !StartsWith(lines[j], Key(name)) {
      if j == 2 {
        MismatchAt(lines[j], Key(name), 0);
      } else {
        TaggedMismatch(LineNames[j], texts[j], name, at[j]);
      }
    }
    TaggedHasKey(name, texts[k]);
    FirstWithPrefixAt(lines, Key(name), k);
    FieldOfTagged(name, texts[k]);
  }


  /** Field `k` of an info string's lines is read back from its own line. */
  lemma FieldRecovered(c: Component, positionLine: string, format: real -> string, k: nat, at: seq<nat>)
    requires 2 != k < 11 && ':' !in LineTexts(c, positionLine, format)[k]
    requires StartsWith(positionLine, "X=")
    requires |at| == k
    requires forall j :: 0 <= j < k && j != 2 ==>
      at[j] < |LineNames[j]| && at[j] < |LineNames[k]| && LineNames[j][at[j]] != LineNames[k][at[j]]
    ensures FieldValue(InfoLines(c, positionLine, format), LineNames[k]) == Trim(LineTexts(c, positionLine, format)[k])
  {
    InfoLinesTagged(c, positionLine, format);
    assert positionLine[0] == 'X' by { assert positionLine[..2] == "X="; }
    FieldAt(InfoLines(c, positionLine, format), LineTexts(c, positionLine, format), k, at);
  }

  /** The position line is read back whole, trimmed. */
  lemma PositionRecovered(c: Component, positionLine: string, format: real -> string)
    requires StartsWith(positionLine, "X=")
    ensures LineValue(InfoLines(c, positionLine, format), "X=") == Trim(positionLine)
  {
    var lines := InfoLines(c, positionLine, format);
    MismatchAt(lines[0], "X=", 0);
    MismatchAt(lines[1], "X=", 0);
    FirstWithPrefixAt(lines, "X=", 2);
  }
}
