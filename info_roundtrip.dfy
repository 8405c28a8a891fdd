/** The round trip between writing an info string and reading it into the
    panel, field by field. */
module InfoRoundTrip {
  import opened Text
  import opened PcbModel
  import opened InfoText

  lemma LocationRecovered(c: Component, positionLine: string, format: real -> string)
    requires ':' !in c.location && StartsWith(positionLine, "X=")
    ensures FieldValue(InfoLines(c, positionLine, format), "Location") == Trim(c.location)
  {
    FieldRecovered(c, positionLine, format, 0, []);
  }

  lemma TypeRecovered(c: Component, positionLine: string, format: real -> string)
    requires ':' !in c.kind && StartsWith(positionLine, "X=")
    ensures FieldValue(InfoLines(c, positionLine, format), "Type") == Trim(c.kind)
  {
    FieldRecovered(c, positionLine, format, 1, [0]);
  }

  lemma FaceRecovered(c: Component, positionLine: string, format: real -> string)
    requires ':' !in c.face && StartsWith(positionLine, "X=")
    ensures FieldValue(InfoLines(c, positionLine, format), "Face") == Trim(c.face)
  {
    FieldRecovered(c, positionLine, format, 3, [0, 0, 0]);
  }

  lemma KdtecRecovered(c: Component, positionLine: string, format: real -> string)
    requires ':' !in c.kdtecPN && StartsWith(positionLine, "X=")
    ensures FieldValue(InfoLines(c, positionLine, format), "KDTEC P/N") == Trim(c.kdtecPN)
  {
    FieldRecovered(c, positionLine, format, 4, [0, 0, 0, 0]);
  }

  lemma CustomerRecovered(c: Component, positionLine: string, format: real -> string)
    requires ':' !in c.customerPN && StartsWith(positionLine, "X=")
    ensures FieldValue(InfoLines(c, positionLine, format), "Customer P/N") == Trim(c.customerPN)
  {
    FieldRecovered(c, positionLine, format, 5, [0, 0, 0, 0, 0]);
  }

  lemma MakerPNRecovered(c: Component, positionLine: string, format: real -> string)
    requires ':' !in c.makerPN && StartsWith(positionLine, "X=")
    ensures FieldValue(InfoLines(c, positionLine, format), "Maker P/N") == Trim(c.makerPN)
  {
    FieldRecovered(c, positionLine, format, 6, [0, 0, 0, 0, 0, 0]);
  }

  lemma DescriptionRecovered(c: Component, positionLine: string, format: real -> string)
    requires ':' !in c.description && StartsWith(positionLine, "X=")
    ensures FieldValue(InfoLines(c, positionLine, format), "Description") == Trim(c.description)
  {
    FieldRecovered(c, positionLine, format, 7, [0, 0, 0, 0, 0, 0, 0]);
  }

  lemma MakerNameRecovered(c: Component, positionLine: string, format: real -> string)
    requires ':' !in c.makerName && StartsWith(positionLine, "X=")
    ensures FieldValue(InfoLines(c, positionLine, format), "MakerName") == Trim(c.makerName)
  {
    FieldRecovered(c, positionLine, format, 8, [0, 0, 0, 0, 0, 0, 5, 0]);
  }

  lemma ProcessRecovered(c: Component, positionLine: string, format: real -> string)
    requires ':' !in c.process && StartsWith(positionLine, "X=")
    ensures FieldValue(InfoLines(c, positionLine, format), "Process") == Trim(c.process)
  {
    FieldRecovered(c, positionLine, format, 9, [0, 0, 0, 0, 0, 0, 0, 0, 0]);
  }

  lemma DimensionsRecovered(c: Component, positionLine: string, format: real -> string)
    requires ':' !in DimensionsText(c.dimensions, format) && StartsWith(positionLine, "X=")
    ensures FieldValue(InfoLines(c, positionLine, format), "Dimensions") == Trim(DimensionsText(c.dimensions, format))
  {
    FieldRecovered(c, positionLine, format, 10, [0, 0, 0, 0, 0, 0, 0, 1, 0, 0]);
  }

  /** The panel recovers every field of an info string, trimmed, when the
      component's text fields hold no ':' or '\n' and the position line starts
      with "X=" and holds no '\n': the reading inverts the writing. */
  lemma PanelRecoversInfo(c: Component, positionLine: string, format: real -> string)
    requires Plain(c.location) && Plain(c.kind) && Plain(c.face) && Plain(c.kdtecPN)
    requires Plain(c.customerPN) && Plain(c.makerPN) && Plain(c.description)
    requires Plain(c.makerName) && Plain(c.process)
    requires Plain(DimensionsText(c.dimensions, format))
    requires StartsWith(positionLine, "X=") && '\n' !in positionLine
    ensures PanelOf(Info(c, positionLine, format))
         == Panel(Trim(c.location), Trim(c.kind), Trim(positionLine), Trim(c.face), Trim(c.kdtecPN),
                  Trim(c.customerPN), Trim(c.makerPN), Trim(c.description), Trim(c.makerName),
                  Trim(c.process), Trim(DimensionsText(c.dimensions, format)))
  {
    InfoLinesSplit(c, positionLine, format);
    LocationRecovered(c, positionLine, format);
    TypeRecovered(c, positionLine, format);
    PositionRecovered(c, positionLine, format);
    FaceRecovered(c, positionLine, format);
    KdtecRecovered(c, positionLine, format);
    CustomerRecovered(c, positionLine, format);
    MakerPNRecovered(c, positionLine, format);
    DescriptionRecovered(c, positionLine, format);
    MakerNameRecovered(c, positionLine, format);
    ProcessRecovered(c, positionLine, format);
    DimensionsRecovered(c, positionLine, format);
  }

  /** The rotation text holds no line break and ends in a digit. */
  lemma RotationText(n: int)
    ensures '\n' !in IntToText(n) && !IsWhiteSpace(IntToText(n)[|IntToText(n)| - 1])
  {
  }

  /** A line that starts "X=", holds no line break and ends in a rotation
      text starts with "X=", holds no line break and is its own trim. */
  lemma PositionLineShape(line: string, front: string, n: int)
    requires StartsWith(front, "X=") && '\n' !in front && line == front + IntToText(n)
    ensures StartsWith(line, "X=") && '\n' !in line && Trim(line) == line
  {
    var rotation := IntToText(n);
    PrefixOfTagged(front, rotation, "X=");
    RotationText(n);
    assert line[0] == front[0] == 'X' by { assert front[..2] == "X="; }
    assert line[|line| - 1] == rotation[|rotation| - 1];
    TrimKeeps(line);
  }

  /** The full build's position line starts with "X=", holds no line break
      when the formatted coordinates hold none, and is its own trim. */
  lemma DrawPositionLineWellFormed(c: Component, format: real -> string)
    requires '\n' !in format(c.x) && '\n' !in format(c.y)
    ensures StartsWith(DrawPositionLine(c, format), "X=") && '\n' !in DrawPositionLine(c, format)
    ensures Trim(DrawPositionLine(c, format)) == DrawPositionLine(c, format)
  {
    var p1 := "X=" + format(c.x);
    var p2 := p1 + ", Y=";
    var p3 := p2 + format(c.y);
    var p4 := p3 + " Rotation=";
    PrefixOfTagged("X=", format(c.x), "X=");
    PrefixOfTagged(p1, ", Y=", "X=");
    PrefixOfTagged(p2, format(c.y), "X=");
    PrefixOfTagged(p3, " Rotation=", "X=");
    PositionLineShape(DrawPositionLine(c, format), p4, c.rotation);
  }

  /** The same for the offset re-layout's position line. */
  lemma OffsetPositionLineWellFormed(c: Component, dx: real, dy: real, dz: real, formatDouble: real -> string)
    requires '\n' !in formatDouble(c.x + dx) && '\n' !in formatDouble(c.y + dy) && '\n' !in formatDouble(c.z + dz)
    ensures StartsWith(OffsetPositionLine(c, dx, dy, dz, formatDouble), "X=")
    ensures '\n' !in OffsetPositionLine(c, dx, dy, dz, formatDouble)
    ensures Trim(OffsetPositionLine(c, dx, dy, dz, formatDouble)) == OffsetPositionLine(c, dx, dy, dz, formatDouble)
  {
    var p1 := "X=" + formatDouble(c.x + dx);
    var p2 := p1 + ", Y=";
    var p3 := p2 + formatDouble(c.y + dy);
    var p4 := p3 + ", Z=";
    var p5 := p4 + formatDouble(c.z + dz);
    var p6 := p5 + ", Rotation=";
    PrefixOfTagged("X=", formatDouble(c.x + dx), "X=");
    PrefixOfTagged(p1, ", Y=", "X=");
    PrefixOfTagged(p2, formatDouble(c.y + dy), "X=");
    PrefixOfTagged(p3, ", Z=", "X=");
    PrefixOfTagged(p4, formatDouble(c.z + dz), "X=");
    PrefixOfTagged(p5, ", Rotation=", "X=");
    PositionLineShape(OffsetPositionLine(c, dx, dy, dz, formatDouble), p6, c.rotation);
  }

  /** The dimensions text is plain when each formatted number is. */
  lemma DimensionsPlain(d: Dimensions, format: real -> string)
    requires Plain(format(d.width)) && Plain(format(d.height)) && Plain(format(d.thickness))
    ensures Plain(DimensionsText(d, format))
  {
  }

  /** What the panel shows for a box of the full build: every text field
      trimmed, and the position line exactly as written. */
  lemma PanelOfDrawInfo(c: Component, format: real -> string)
    requires Plain(c.location) && Plain(c.kind) && Plain(c.face) && Plain(c.kdtecPN)
    requires Plain(c.customerPN) && Plain(c.makerPN) && Plain(c.description)
    requires Plain(c.makerName) && Plain(c.process)
    requires forall v :: Plain(format(v))
    ensures PanelOf(DrawInfo(c, format))
         == Panel(Trim(c.location), Trim(c.kind), DrawPositionLine(c, format), Trim(c.face),
                  Trim(c.kdtecPN), Trim(c.customerPN), Trim(c.makerPN), Trim(c.description),
                  Trim(c.makerName), Trim(c.process), Trim(DimensionsText(c.dimensions, format)))
  {
    DrawPositionLineWellFormed(c, format);
    DimensionsPlain(c.dimensions, format);
    PanelRecoversInfo(c, DrawPositionLine(c, format), format);
  }

  /** What the panel shows for a box of the offset re-layout: every text
      field trimmed, and the shifted position line exactly as written. */
  lemma PanelOfOffsetInfo(c: Component, dx: real, dy: real, dz: real,
                          format: real -> string, formatDouble: real -> string)
    requires Plain(c.location) && Plain(c.kind) && Plain(c.face) && Plain(c.kdtecPN)
    requires Plain(c.customerPN) && Plain(c.makerPN) && Plain(c.description)
    requires Plain(c.makerName) && Plain(c.process)
    requires forall v :: Plain(format(v))
    requires forall v :: Plain(formatDouble(v))
    ensures PanelOf(OffsetInfo(c, dx, dy, dz, format, formatDouble))
         == Panel(Trim(c.location), Trim(c.kind), OffsetPositionLine(c, dx, dy, dz, formatDouble), Trim(c.face),
                  Trim(c.kdtecPN), Trim(c.customerPN), Trim(c.makerPN), Trim(c.description),
                  Trim(c.makerName), Trim(c.process), Trim(DimensionsText(c.dimensions, format)))
  {
    OffsetPositionLineWellFormed(c, dx, dy, dz, formatDouble);
    DimensionsPlain(c.dimensions, format);
    PanelRecoversInfo(c, OffsetPositionLine(c, dx, dy, dz, formatDouble), format);
  }
}
