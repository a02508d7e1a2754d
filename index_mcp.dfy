// The second serverless MCP endpoint, api/index.py: a dispatcher that reads
// the envelope with `dict.get` defaults instead of validating it, two tool
// handlers that assemble a result dict step by step, and the fixed
// placeholder MusicXML template they embed.
module IndexMcp {
  import opened Wrappers
  import opened JsonValue
  import opened Text
  import opened JsonRpc
  import opened Services

  // ---------------------------------------------------------------------------
  // create_placeholder_musicxml

  /** An XML element or a text node; attributes keep their order. */
  datatype Xml = Element(tag: string, attrs: seq<(string, string)>, children: seq<Xml>) | Text(text: string)

  function AttrText(attrs: seq<(string, string)>): string
    decreases |attrs|
  {
    if |attrs| == 0 then "" else " " + attrs[0].0 + "=\"" + attrs[0].1 + "\"" + AttrText(attrs[1..])
  }

  function Spaces(n: nat): string {
    seq(n, _ => ' ')
  }

  function Concat(parts: seq<seq<string>>): seq<string>
    decreases |parts|
  {
    if |parts| == 0 then [] else parts[0] + Concat(parts[1..])
  }

  /**
   * The template's layout: an element holding only text on one line, any
   * other element as an opening line, its children indented by two, and a
   * closing line. Values are interpolated as they are, without escaping.
   */
  function Lines(x: Xml, indent: nat): seq<string>
    decreases x
  {
    match x
    case Text(t) => [Spaces(indent) + t]
    case Element(tag, attrs, children) =>
      var open := Spaces(indent) + "<" + tag + AttrText(attrs) + ">";
      if |children| == 1 && children[0].Text? then [open + children[0].text + "</" + tag + ">"]
      else [open] + Concat(seq(|children|, k requires 0 <= k < |children| => Lines(children[k], indent + 2)))
           + [Spaces(indent) + "</" + tag + ">"]
  }

  function Leaf(tag: string, text: string): Xml {
    Element(tag, [], [Text(text)])
  }

  function Node(tag: string, children: seq<Xml>): Xml {
    Element(tag, [], children)
  }

  /** One note of the placeholder score. */
  datatype Note = Note(step: char, octave: nat, duration: nat, kind: string)

  /** The four notes every placeholder score holds: quarter notes C4, D4, E4, F4. */
  const PlaceholderNotes: seq<Note> :=
    [Note('C', 4, 4, "quarter"), Note('D', 4, 4, "quarter"),
     Note('E', 4, 4, "quarter"), Note('F', 4, 4, "quarter")]

  function NoteElement(n: Note): Xml {
    Node("note", [
      Node("pitch", [Leaf("step", [n.step]), Leaf("octave", NatToString(n.octave))]),
      Leaf("duration", NatToString(n.duration)),
      Leaf("type", n.kind)])
  }

  /** The text of an element that holds one text node and nothing else. */
  function LeafText(x: Xml, tag: string): Option<string> {
    if x.Element? && x.tag == tag && x.attrs == [] && |x.children| == 1 && x.children[0].Text?
    then Some(x.children[0].text)
    else None
  }

  /** Reads a `<note>` element back. */
  function ParseNote(x: Xml): Option<Note> {
    if !(x.Element? && x.tag == "note" && x.attrs == [] && |x.children| == 3) then None
    else
      var pitch := x.children[0];
      if !(pitch.Element? && pitch.tag == "pitch" && pitch.attrs == [] && |pitch.children| == 2) then None
      else
        match (LeafText(pitch.children[0], "step"), LeafText(pitch.children[1], "octave"),
               LeafText(x.children[1], "duration"), LeafText(x.children[2], "type"))
        case (Some(step), Some(octave), Some(duration), Some(kind)) =>
          if |step| == 1 && AllDigits(octave) && AllDigits(duration)
          then Some(Note(step[0], ParseNat(octave), ParseNat(duration), kind))
          else None
        case _ => None
  }

  lemma NoteRoundTrip(n: Note)
    ensures ParseNote(NoteElement(n)) == Some(n)
  {
    ParseNatToString(n.octave);
    ParseNatToString(n.duration);
  }

  const Key: Xml := Node("key", [Leaf("fifths", "0")])
  const Time: Xml := Node("time", [Leaf("beats", "4"), Leaf("beat-type", "4")])
  const Clef: Xml := Node("clef", [Leaf("sign", "G"), Leaf("line", "2")])
  const Attributes: Xml := Node("attributes", [Leaf("divisions", "4"), Key, Time, Clef])

  /** The measure: the attributes, then one element per note. */
  function Measure(notes: seq<Note>): Xml {
    Element("measure", [("number", "1")], [Attributes] + seq(|notes|, k requires 0 <= k < |notes| => NoteElement(notes[k])))
  }

  function Work(title: string): Xml {
    Node("work", [Leaf("work-title", title)])
  }

  function Identification(today: string): Xml {
    Node("identification", [
      Element("creator", [("type", "composer")], [Text("MusicToolkit AI")]),
      Node("encoding", [Leaf("software", "MusicToolkit MCP Server"), Leaf("encoding-date", today)])])
  }

  const PartList: Xml :=
    Node("part-list", [Element("score-part", [("id", "P1")], [Leaf("part-name", "Generated Part")])])

  const Part: Xml :=
    Element("part", [("id", "P1")], [Measure(PlaceholderNotes)])

  /** The document tree of create_placeholder_musicxml for a title and an encoding date. */
  function PlaceholderTree(title: string, today: string): Xml {
    Element("score-partwise", [("version", "3.1")], [Work(title), Identification(today), PartList, Part])
  }

  /** The title a score tree carries in `<work>/<work-title>`. */
  function WorkTitle(x: Xml): Option<string> {
    if x.Element? && |x.children| > 0 && x.children[0].Element? && x.children[0].tag == "work"
       && |x.children[0].children| == 1
    then LeafText(x.children[0].children[0], "work-title")
    else None
  }

  /** The notes of the first measure of the first part, read back element by element. */
  function ScoreNotes(x: Xml): Option<seq<Note>> {
    if x.Element? && |x.children| == 4 && x.children[3].Element? && |x.children[3].children| == 1
       && x.children[3].children[0].Element? && |x.children[3].children[0].children| >= 1
    then ParseNotes(x.children[3].children[0].children[1..])
    else None
  }

  function ParseNotes(xs: seq<Xml>): (r: Option<seq<Note>>)
    ensures r.Some? ==> |r.value| == |xs|
    decreases |xs|
  {
    if |xs| == 0 then Some([])
    else match (ParseNote(xs[0]), ParseNotes(xs[1..]))
      case (Some(n), Some(rest)) => Some([n] + rest)
      case _ => None
  }

  lemma {:induction false} ParseNotesRoundTrip(notes: seq<Note>)
    ensures ParseNotes(seq(|notes|, k requires 0 <= k < |notes| => NoteElement(notes[k]))) == Some(notes)
    decreases |notes|
  {
    var xs := seq(|notes|, k requires 0 <= k < |notes| => NoteElement(notes[k]));
    if |notes| > 0 {
      NoteRoundTrip(notes[0]);
      assert xs[1..] == seq(|notes[1..]|, k requires 0 <= k < |notes[1..]| => NoteElement(notes[1..][k]));
      ParseNotesRoundTrip(notes[1..]);
      assert [notes[0]] + notes[1..] == notes;
    }
  }

  /** The tree holds the given title and, whatever the title and date, the same four notes. */
  lemma PlaceholderContents(title: string, today: string)
    ensures WorkTitle(PlaceholderTree(title, today)) == Some(title)
    ensures ScoreNotes(PlaceholderTree(title, today)) == Some(PlaceholderNotes)
  {
    var m := Measure(PlaceholderNotes);
    assert m.children[1..] == seq(|PlaceholderNotes|, k requires 0 <= k < |PlaceholderNotes| => NoteElement(PlaceholderNotes[k]));
    ParseNotesRoundTrip(PlaceholderNotes);
  }

  /** Every placeholder note is a quarter note of duration 4 in octave 4, and the steps run C, D, E, F. */
  lemma PlaceholderNotesShape()
    ensures |PlaceholderNotes| == 4
    ensures forall k :: 0 <= k < |PlaceholderNotes| ==>
              PlaceholderNotes[k].duration == 4 && PlaceholderNotes[k].kind == "quarter" && PlaceholderNotes[k].octave == 4
    ensures PlaceholderNotes[0].step == 'C' && PlaceholderNotes[1].step == 'D'
    ensures PlaceholderNotes[2].step == 'E' && PlaceholderNotes[3].step == 'F'
  {
  }

  const XmlDeclaration: string := "<?xml version=\"1.0\" encoding=\"UTF-8\"?>"

  /**
   * create_placeholder_musicxml: the declaration line and the tree, laid out
   * line by line. The timestamp argument has no parameter here because
   * nothing reads it.
   */
  function CreatePlaceholderMusicXml(title: string, today: string): (doc: string)
    ensures StartsWith(doc, XmlDeclaration + "\n")
  {
    var body := Lines(PlaceholderTree(title, today), 0);
    var parts := [XmlDeclaration] + body;
    assert |body| > 0 && parts[1..] == body;
    StartsWithConcat(XmlDeclaration + "\n", JoinWith(body, "\n"));
    JoinWith(parts, "\n")
  }

  // The document line by line: the layout of each element, and the lines of
  // the placeholder document once it is split at its newlines.

  function OpenLine(tag: string, indent: nat): string {
    Spaces(indent) + "<" + tag + ">"
  }

  function CloseLine(tag: string, indent: nat): string {
    Spaces(indent) + "</" + tag + ">"
  }

  /** An element holding only text, on one line: `<tag>text</tag>`. */
  function LeafLine(tag: string, text: string, indent: nat): string {
    Spaces(indent) + "<" + tag + ">" + text + "</" + tag + ">"
  }

  /** A note takes eight lines, its pitch one level deeper than its duration and type. */
  function NoteLayout(n: Note, indent: nat): seq<string> {
    [OpenLine("note", indent),
     OpenLine("pitch", indent + 2),
     LeafLine("step", [n.step], indent + 4),
     LeafLine("octave", NatToString(n.octave), indent + 4),
     CloseLine("pitch", indent + 2),
     LeafLine("duration", NatToString(n.duration), indent + 2),
     LeafLine("type", n.kind, indent + 2),
     CloseLine("note", indent)]
  }

  /** The lines of a run of sibling elements, one after the other. */
  function ChildLines(children: seq<Xml>, indent: nat): seq<string>
    decreases |children|
  {
    if |children| == 0 then [] else Lines(children[0], indent) + ChildLines(children[1..], indent)
  }

  lemma ChildLinesOne(a: Xml, indent: nat)
    ensures ChildLines([a], indent) == Lines(a, indent)
  {
    assert [a][1..] == [];
    assert Lines(a, indent) + [] == Lines(a, indent);
  }

  lemma ChildLinesCons(a: Xml, rest: seq<Xml>, indent: nat)
    ensures ChildLines([a] + rest, indent) == Lines(a, indent) + ChildLines(rest, indent)
  {
    assert ([a] + rest)[1..] == rest;
  }

  lemma ChildLinesPair(a: Xml, b: Xml, indent: nat)
    ensures ChildLines([a, b], indent) == Lines(a, indent) + Lines(b, indent)
  {
    ChildLinesCons(a, [b], indent);
    ChildLinesOne(b, indent);
  }

  lemma ChildLinesFour(a: Xml, b: Xml, c: Xml, d: Xml, indent: nat)
    ensures ChildLines([a, b, c, d], indent) == Lines(a, indent) + Lines(b, indent) + Lines(c, indent) + Lines(d, indent)
  {
    ChildLinesCons(a, [b, c, d], indent);
    ChildLinesCons(b, [c, d], indent);
    ChildLinesPair(c, d, indent);
  }

  lemma {:induction false} ConcatChildLines(children: seq<Xml>, indent: nat)
    ensures Concat(seq(|children|, k requires 0 <= k < |children| => Lines(children[k], indent))) == ChildLines(children, indent)
    decreases |children|
  {
    if |children| > 0 {
      var parts := seq(|children|, k requires 0 <= k < |children| => Lines(children[k], indent));
      assert parts[1..] == seq(|children[1..]|, k requires 0 <= k < |children[1..]| => Lines(children[1..][k], indent));
      ConcatChildLines(children[1..], indent);
    }
  }

  lemma ElementLines(tag: string, attrs: seq<(string, string)>, children: seq<Xml>, indent: nat)
    requires !(|children| == 1 && children[0].Text?)
    ensures Lines(Element(tag, attrs, children), indent)
            == [Spaces(indent) + "<" + tag + AttrText(attrs) + ">"] + ChildLines(children, indent + 2) + [CloseLine(tag, indent)]
  {
    ConcatChildLines(children, indent + 2);
  }

  lemma NodeLines(tag: string, children: seq<Xml>, indent: nat)
    requires !(|children| == 1 && children[0].Text?)
    ensures Lines(Node(tag, children), indent) == [OpenLine(tag, indent)] + ChildLines(children, indent + 2) + [CloseLine(tag, indent)]
  {
    ElementLines(tag, [], children, indent);
    var head := Spaces(indent) + "<" + tag;
    assert head + AttrText([]) == head;
  }

  lemma LeafLines(tag: string, text: string, indent: nat)
    ensures Lines(Leaf(tag, text), indent) == [LeafLine(tag, text, indent)]
  {
    var head := Spaces(indent) + "<" + tag;
    assert head + AttrText([]) == head;
  }

  lemma NoteLines(n: Note, indent: nat)
    ensures Lines(NoteElement(n), indent) == NoteLayout(n, indent)
  {
    var pitch := Node("pitch", [Leaf("step", [n.step]), Leaf("octave", NatToString(n.octave))]);
    NodeLines("pitch", pitch.children, indent + 2);
    LeafLines("step", [n.step], indent + 4);
    LeafLines("octave", NatToString(n.octave), indent + 4);
    ChildLinesCons(pitch.children[0], [pitch.children[1]], indent + 4);
    ChildLinesOne(pitch.children[1], indent + 4);
    var note := NoteElement(n);
    NodeLines("note", note.children, indent);
    LeafLines("duration", NatToString(n.duration), indent + 2);
    LeafLines("type", n.kind, indent + 2);
    ChildLinesCons(pitch, note.children[1..], indent + 2);
    ChildLinesCons(note.children[1], [note.children[2]], indent + 2);
    ChildLinesOne(note.children[2], indent + 2);
  }

  /** The k-th block of eight lines after a leading block is the (k-1)-th block of the rest. */
  lemma BlockShift(first: seq<string>, rest: seq<string>, k: nat)
    requires |first| == 8 && 1 <= k && 8 * k + 8 <= |first| + |rest|
    ensures (first + rest)[8 * k..8 * k + 8] == rest[8 * (k - 1)..8 * (k - 1) + 8]
  {
  }

  /** The notes of a measure are laid out one after the other, eight lines each. */
  lemma {:induction false} NotesLayout(notes: seq<Note>, indent: nat)
    ensures var lines := ChildLines(seq(|notes|, k requires 0 <= k < |notes| => NoteElement(notes[k])), indent);
            |lines| == 8 * |notes|
            && forall k :: 0 <= k < |notes| ==> lines[8 * k..8 * k + 8] == NoteLayout(notes[k], indent)
    decreases |notes|
  {
    var xs := seq(|notes|, k requires 0 <= k < |notes| => NoteElement(notes[k]));
    if |notes| > 0 {
      var first := NoteLayout(notes[0], indent);
      var rest := ChildLines(xs[1..], indent);
      NoteLines(notes[0], indent);
      assert xs[1..] == seq(|notes[1..]|, k requires 0 <= k < |notes[1..]| => NoteElement(notes[1..][k]));
      NotesLayout(notes[1..], indent);
      assert ChildLines(xs, indent) == first + rest;
      forall k | 0 <= k < |notes|
        ensures (first + rest)[8 * k..8 * k + 8] == NoteLayout(notes[k], indent)
      {
        if k > 0 {
          BlockShift(first, rest, k);
          assert notes[1..][k - 1] == notes[k];
        }
      }
    }
  }

  predicate LineFree(lines: seq<string>) {
    forall k :: 0 <= k < |lines| ==> '\n' !in lines[k]
  }

  /** No tag, attribute text or text node holds a newline. */
  predicate XmlLineFree(x: Xml)
    decreases x
  {
    match x
    case Text(t) => '\n' !in t
    case Element(tag, attrs, children) =>
      '\n' !in tag && '\n' !in AttrText(attrs) && forall k :: 0 <= k < |children| ==> XmlLineFree(children[k])
  }

  lemma SpacesLineFree(n: nat)
    ensures '\n' !in Spaces(n)
  {
    assert forall k :: 0 <= k < n ==> Spaces(n)[k] == ' ';
  }

  lemma {:induction false} ConcatLineFree(parts: seq<seq<string>>)
    requires forall k :: 0 <= k < |parts| ==> LineFree(parts[k])
    ensures LineFree(Concat(parts))
    decreases |parts|
  {
    if |parts| > 0 {
      ConcatLineFree(parts[1..]);
    }
  }

  /** A tree without newlines is laid out as lines without newlines. */
  lemma {:induction false} LinesLineFree(x: Xml, indent: nat)
    requires XmlLineFree(x)
    ensures LineFree(Lines(x, indent))
    decreases x
  {
    SpacesLineFree(indent);
    match x
    case Text(t) =>
    case Element(tag, attrs, children) =>
      if !(|children| == 1 && children[0].Text?) {
        var parts := seq(|children|, k requires 0 <= k < |children| => Lines(children[k], indent + 2));
        forall k | 0 <= k < |children|
          ensures LineFree(parts[k])
        {
          LinesLineFree(children[k], indent + 2);
        }
        ConcatLineFree(parts);
      }
  }

  lemma LeafLineFree(tag: string, text: string)
    requires '\n' !in tag && '\n' !in text
    ensures XmlLineFree(Leaf(tag, text))
  {
    assert Leaf(tag, text).children[0] == Text(text);
  }

  lemma NoteLineFree(n: Note)
    requires n.step != '\n' && '\n' !in n.kind
    ensures XmlLineFree(NoteElement(n))
  {
    LeafLineFree("step", [n.step]);
    LeafLineFree("octave", NatToString(n.octave));
    LeafLineFree("duration", NatToString(n.duration));
    LeafLineFree("type", n.kind);
  }

  lemma PairLineFree(tag: string, a: Xml, b: Xml)
    requires '\n' !in tag && XmlLineFree(a) && XmlLineFree(b)
    ensures XmlLineFree(Node(tag, [a, b]))
  {
  }

  lemma TimeLineFree()
    ensures XmlLineFree(Attributes.children[2])
  {
    LeafLineFree("beats", "4");
    LeafLineFree("beat-type", "4");
  }

  lemma ClefLineFree()
    ensures XmlLineFree(Attributes.children[3])
  {
    LeafLineFree("sign", "G");
    LeafLineFree("line", "2");
  }

  lemma AttributesLineFree()
    ensures XmlLineFree(Attributes)
  {
    LeafLineFree("divisions", "4");
    LeafLineFree("fifths", "0");
    TimeLineFree();
    ClefLineFree();
  }

  lemma PartLineFree()
    ensures XmlLineFree(Part)
  {
    var m := Measure(PlaceholderNotes);
    AttributesLineFree();
    forall k | 0 <= k < |m.children|
      ensures XmlLineFree(m.children[k])
    {
      if k > 0 {
        NoteLineFree(PlaceholderNotes[k - 1]);
      }
    }
  }

  lemma CreatorLineFree()
    ensures XmlLineFree(Element("creator", [("type", "composer")], [Text("MusicToolkit AI")]))
  {
  }

  lemma EncodingLineFree(today: string)
    requires '\n' !in today
    ensures XmlLineFree(Node("encoding", [Leaf("software", "MusicToolkit MCP Server"), Leaf("encoding-date", today)]))
  {
    LeafLineFree("software", "MusicToolkit MCP Server");
    LeafLineFree("encoding-date", today);
  }

  lemma IdentificationLineFree(today: string)
    requires '\n' !in today
    ensures XmlLineFree(Identification(today))
  {
    CreatorLineFree();
    EncodingLineFree(today);
  }

  lemma PartListLineFree()
    ensures XmlLineFree(PartList)
  {
    LeafLineFree("part-name", "Generated Part");
  }

  lemma PlaceholderTreeLineFree(title: string, today: string)
    requires '\n' !in title && '\n' !in today
    ensures XmlLineFree(PlaceholderTree(title, today))
  {
    LeafLineFree("work-title", title);
    IdentificationLineFree(today);
    PartListLineFree();
    PartLineFree();
  }

  lemma IdentificationLines(today: string)
    ensures var lines := Lines(Identification(today), 2);
            |lines| == 7 && lines[4] == LeafLine("encoding-date", today, 6)
  {
    var id := Identification(today);
    var creator := id.children[0];
    var enc := id.children[1];
    NodeLines("identification", id.children, 2);
    ChildLinesCons(creator, [enc], 4);
    ChildLinesOne(enc, 4);
    assert |Lines(creator, 4)| == 1;
    NodeLines("encoding", enc.children, 4);
    ChildLinesCons(enc.children[0], [enc.children[1]], 6);
    ChildLinesOne(enc.children[1], 6);
    LeafLines("software", "MusicToolkit MCP Server", 6);
    LeafLines("encoding-date", today, 6);
  }

  /** The two-leaf elements of the attributes take four lines, the key three. */
  lemma PairLines(tag: string, a: Xml, b: Xml, indent: nat)
    ensures |Lines(Node(tag, [a, b]), indent)| == 2 + |Lines(a, indent + 2)| + |Lines(b, indent + 2)|
  {
    NodeLines(tag, [a, b], indent);
    ChildLinesPair(a, b, indent + 2);
  }

  lemma AttributesLines(indent: nat)
    ensures |Lines(Attributes, indent)| == 14
  {
    NodeLines("attributes", [Leaf("divisions", "4"), Key, Time, Clef], indent);
    ChildLinesFour(Leaf("divisions", "4"), Key, Time, Clef, indent + 2);
    KeyLines(indent + 2);
    PairLines("time", Leaf("beats", "4"), Leaf("beat-type", "4"), indent + 2);
    PairLines("clef", Leaf("sign", "G"), Leaf("line", "2"), indent + 2);
  }

  lemma KeyLines(indent: nat)
    ensures |Lines(Key, indent)| == 3
  {
    NodeLines("key", [Leaf("fifths", "0")], indent);
    ChildLinesOne(Leaf("fifths", "0"), indent + 2);
  }

  /** Where the notes land among the measure's lines. */
  lemma MeasureIndexing(open: string, attrs: seq<string>, notes: seq<string>, close: string)
    requires |attrs| == 14 && |notes| == 32
    ensures var lines := [open] + (attrs + notes) + [close];
            |lines| == 48 && forall k :: 0 <= k < 4 ==> lines[15 + 8 * k..23 + 8 * k] == notes[8 * k..8 * k + 8]
  {
  }

  lemma MeasureLines(indent: nat)
    ensures var lines := Lines(Measure(PlaceholderNotes), indent);
            |lines| == 48
            && forall k :: 0 <= k < |PlaceholderNotes| ==> lines[15 + 8 * k..23 + 8 * k] == NoteLayout(PlaceholderNotes[k], indent + 2)
  {
    var notes := seq(|PlaceholderNotes|, k requires 0 <= k < |PlaceholderNotes| => NoteElement(PlaceholderNotes[k]));
    ElementLines("measure", [("number", "1")], [Attributes] + notes, indent);
    ChildLinesCons(Attributes, notes, indent + 2);
    AttributesLines(indent + 2);
    NotesLayout(PlaceholderNotes, indent + 2);
    MeasureIndexing(Spaces(indent) + "<" + "measure" + AttrText([("number", "1")]) + ">", Lines(Attributes, indent + 2), ChildLines(notes, indent + 2), CloseLine("measure", indent));
  }

  lemma PartLines(indent: nat)
    ensures var lines := Lines(Part, indent);
            |lines| == 50
            && forall k :: 0 <= k < |PlaceholderNotes| ==> lines[16 + 8 * k..24 + 8 * k] == NoteLayout(PlaceholderNotes[k], indent + 4)
  {
    var m := Measure(PlaceholderNotes);
    ElementLines("part", [("id", "P1")], [m], indent);
    ChildLinesOne(m, indent + 2);
    MeasureLines(indent + 2);
    var lines := Lines(Part, indent);
    var mlines := Lines(m, indent + 2);
    assert lines == [lines[0]] + mlines + [CloseLine("part", indent)];
    forall k | 0 <= k < |PlaceholderNotes|
      ensures lines[16 + 8 * k..24 + 8 * k] == NoteLayout(PlaceholderNotes[k], indent + 4)
    {
      assert lines[16 + 8 * k..24 + 8 * k] == mlines[15 + 8 * k..23 + 8 * k];
    }
  }

  lemma WorkLines(title: string)
    ensures Lines(Work(title), 2) == [OpenLine("work", 2), LeafLine("work-title", title, 4), CloseLine("work", 2)]
  {
    NodeLines("work", Work(title).children, 2);
    ChildLinesOne(Leaf("work-title", title), 4);
    LeafLines("work-title", title, 4);
  }

  lemma PartListLines(indent: nat)
    ensures |Lines(PartList, indent)| == 5
  {
    var sp := PartList.children[0];
    NodeLines("part-list", PartList.children, indent);
    ChildLinesOne(sp, indent + 2);
    ElementLines("score-part", [("id", "P1")], sp.children, indent + 2);
    ChildLinesOne(sp.children[0], indent + 4);
  }

  /** An element with four element children: its opening line, their lines in order, its closing line. */
  lemma FourChildLines(tag: string, attrs: seq<(string, string)>, a: Xml, b: Xml, c: Xml, d: Xml, indent: nat)
    ensures Lines(Element(tag, attrs, [a, b, c, d]), indent)
            == [Spaces(indent) + "<" + tag + AttrText(attrs) + ">"]
               + (Lines(a, indent + 2) + Lines(b, indent + 2) + Lines(c, indent + 2) + Lines(d, indent + 2))
               + [CloseLine(tag, indent)]
  {
    ElementLines(tag, attrs, [a, b, c, d], indent);
    ChildLinesFour(a, b, c, d, indent + 2);
  }

  const RootOpenLine: string := Spaces(0) + "<" + "score-partwise" + AttrText([("version", "3.1")]) + ">"

  /** The document's body: the root's opening line, its four children's lines, and its closing line. */
  lemma TreeLines(title: string, today: string)
    ensures Lines(PlaceholderTree(title, today), 0)
            == [RootOpenLine] + (Lines(Work(title), 2) + Lines(Identification(today), 2) + Lines(PartList, 2) + Lines(Part, 2))
               + [CloseLine("score-partwise", 0)]
  {
    FourChildLines("score-partwise", [("version", "3.1")], Work(title), Identification(today), PartList, Part, 0);
  }

  /** Where the pieces of the body land among the document's lines. */
  lemma DocumentIndexing(decl: string, open: string, w: seq<string>, id: seq<string>, pl: seq<string>, p: seq<string>, close: string)
    requires |w| == 3 && |id| == 7 && |pl| == 5 && |p| == 50
    ensures var parts := [decl] + ([open] + (w + id + pl + p) + [close]);
            |parts| == 68 && parts[0] == decl && parts[3] == w[1] && parts[9] == id[4]
            && forall k :: 0 <= k < 4 ==> parts[33 + 8 * k..41 + 8 * k] == p[16 + 8 * k..24 + 8 * k]
  {
  }

  lemma DocumentLineFree(title: string, today: string)
    requires '\n' !in title && '\n' !in today
    ensures LineFree([XmlDeclaration] + Lines(PlaceholderTree(title, today), 0))
  {
    PlaceholderTreeLineFree(title, today);
    LinesLineFree(PlaceholderTree(title, today), 0);
  }

  /**
   * Split at its newlines, the placeholder document has 68 lines: the
   * declaration, the given title inside `<work-title>` at index 3, the
   * encoding date at index 9, and the four notes from index 33 on.
   */
  lemma PlaceholderDocument(title: string, today: string)
    requires '\n' !in title && '\n' !in today
    ensures var lines := Split(CreatePlaceholderMusicXml(title, today), '\n');
            |lines| == 68
            && lines[0] == XmlDeclaration
            && lines[3] == LeafLine("work-title", title, 4)
            && lines[9] == LeafLine("encoding-date", today, 6)
            && forall k :: 0 <= k < |PlaceholderNotes| ==> lines[33 + 8 * k..41 + 8 * k] == NoteLayout(PlaceholderNotes[k], 6)
  {
    var body := Lines(PlaceholderTree(title, today), 0);
    DocumentLineFree(title, today);
    SplitJoin([XmlDeclaration] + body, '\n');
    TreeLines(title, today);
    WorkLines(title);
    IdentificationLines(today);
    PartListLines(2);
    PartLines(2);
    DocumentIndexing(XmlDeclaration, RootOpenLine, Lines(Work(title), 2), Lines(Identification(today), 2),
                     Lines(PartList, 2), Lines(Part, 2), CloseLine("score-partwise", 0));
  }

  // ---------------------------------------------------------------------------
  // wav_to_music_score

  const ScoreTitle: string := "Audio Conversion"
  const HummingTitle: string := "Generated from Humming"
  const ScoreBaseMessage: string := "Placeholder MusicXML generated (basic-pitch not available in deployment)"

  /** How the rendering request of wav_to_music_score ended. */
  datatype Rendering = Rendered(svg: Json) | RenderRejected | RenderRaised(error: string)

  /**
   * The reply read as the source reads it: a 200 whose JSON is an object gives
   * its "svg" (default ""); `.get` on any other JSON value raises, like a
   * failed call or an undecodable body.
   */
  function RenderingOf(reply: HttpReply): (r: Rendering)
    ensures r.Rendered? <==> reply.Replied? && reply.status == 200 && reply.body.Parsed? && reply.body.value.JObj?
    ensures r.Rendered? ==> r.svg == Get(reply.body.value.fields, "svg", JStr(""))
    ensures r.RenderRejected? <==> reply.Replied? && reply.status != 200
    ensures reply.Failed? ==> r == RenderRaised(reply.error)
  {
    match reply
    case Failed(e) => RenderRaised(e)
    case Replied(status, _, body) =>
      if status != 200 then RenderRejected
      else
        match body
        case Unparseable(e) => RenderRaised(e)
        case Parsed(JObj(m)) => Rendered(Get(m, "svg", JStr("")))
        case Parsed(other) => RenderRaised(NoGetMessage(other))
  }

  /** The value stored under "svg": the service's, or "" after any failure. */
  function SvgValue(r: Rendering): Json {
    if r.Rendered? then r.svg else JStr("")
  }

  /** The one suffix appended to "message". */
  function RenderSuffix(r: Rendering): string {
    match r
    case Rendered(_) => " with SVG rendering"
    case RenderRejected => " (SVG rendering failed)"
    case RenderRaised(e) => " (SVG error: " + e + ")"
  }

  /**
   * The dict wav_to_music_score returns. It always reports success and holds
   * the placeholder score; "svg" is present exactly when rendering was asked
   * for, and then the message carries the suffix of how rendering ended.
   */
  function ScoreResult(renderSvg: Json, today: string, reply: HttpReply): map<string, Json> {
    var base := map["success" := JBool(true),
                    "musicxml" := JStr(CreatePlaceholderMusicXml(ScoreTitle, today)),
                    "message" := JStr(ScoreBaseMessage)];
    if !Truthy(renderSvg) then base
    else
      var rendering := RenderingOf(reply);
      base["svg" := SvgValue(rendering)]["message" := JStr(ScoreBaseMessage + RenderSuffix(rendering))]
  }

  lemma ScoreResultContents(renderSvg: Json, today: string, reply: HttpReply)
    ensures var r := ScoreResult(renderSvg, today, reply);
            && r.Keys == {"success", "musicxml", "message"} + (if Truthy(renderSvg) then {"svg"} else {})
            && r["success"] == JBool(true)
            && r["musicxml"] == JStr(CreatePlaceholderMusicXml(ScoreTitle, today))
            && (!Truthy(renderSvg) ==> r["message"] == JStr(ScoreBaseMessage))
            && (Truthy(renderSvg) ==>
                  r["svg"] == SvgValue(RenderingOf(reply))
                  && r["message"] == JStr(ScoreBaseMessage + RenderSuffix(RenderingOf(reply))))
  {
  }

  /** wav_to_music_score, assembling the dict the way the source does: set the keys, then patch "svg" and "message". */
  method WavToMusicScore(wavPath: Json, renderSvg: Json, timestamp: Json, today: string, reply: HttpReply)
    returns (result: map<string, Json>)
    ensures result == ScoreResult(renderSvg, today, reply)
  {
    var musicxml := CreatePlaceholderMusicXml(ScoreTitle, today);
    result := map["success" := JBool(true), "musicxml" := JStr(musicxml), "message" := JStr(ScoreBaseMessage)];
    if Truthy(renderSvg) {
      // the inner try around the rendering request
      match RenderingOf(reply) {
        case Rendered(svg) =>
          result := result["svg" := svg];
          result := result["message" := JStr(ScoreBaseMessage + " with SVG rendering")];
        case RenderRejected =>
          result := result["svg" := JStr("")];
          result := result["message" := JStr(ScoreBaseMessage + " (SVG rendering failed)")];
        case RenderRaised(e) =>
          result := result["svg" := JStr("")];
          result := result["message" := JStr(ScoreBaseMessage + (" (SVG error: " + e + ")"))];
      }
    }
  }

  // ---------------------------------------------------------------------------
  // generate_music_from_humming

  const GeneratedMessage: string := "Music generated successfully using MusicGen"

  /** How the generation request ended: the service's audio URL, or the exception that triggers the fallback. */
  datatype Generation = Generated(audio: Json) | Fallback(error: string)

  /**
   * The reply read as the source reads it. Every failure falls back, a non-200
   * status included, for which the source raises its own exception.
   */
  function GenerationOf(reply: HttpReply): (r: Generation)
    ensures r.Generated? <==> reply.Replied? && reply.status == 200 && reply.body.Parsed? && reply.body.value.JObj?
    ensures r.Generated? ==> r.audio == Get(reply.body.value.fields, "audio_url", JStr(""))
    ensures reply.Replied? && reply.status != 200 ==> r == Fallback("MusicGen API error: " + IntToString(reply.status))
    ensures reply.Failed? ==> r == Fallback(reply.error)
  {
    match reply
    case Failed(e) => Fallback(e)
    case Replied(status, _, body) =>
      if status != 200 then Fallback("MusicGen API error: " + IntToString(status))
      else
        match body
        case Unparseable(e) => Fallback(e)
        case Parsed(JObj(m)) => Generated(Get(m, "audio_url", JStr("")))
        case Parsed(other) => Fallback(NoGetMessage(other))
  }

  function AudioValue(g: Generation): Json {
    if g.Generated? then g.audio else JStr("")
  }

  function GenerationMessage(g: Generation): string {
    match g
    case Generated(_) => GeneratedMessage
    case Fallback(e) => "Placeholder response (MusicGen API unavailable: " + e + ")"
  }

  /**
   * The dict generate_music_from_humming returns: always a success, the
   * fallback included; a score and the " with MusicXML score" suffix exactly
   * when one was asked for.
   */
  function GenerateResult(generateScore: Json, today: string, reply: HttpReply): (r: map<string, Json>)
    ensures r.Keys == {"success", "generated_audio", "message"} + (if Truthy(generateScore) then {"musicxml"} else {})
    ensures r["success"] == JBool(true)
    ensures r["generated_audio"] == AudioValue(GenerationOf(reply))
    ensures GenerationOf(reply).Fallback? ==> r["generated_audio"] == JStr("")
    ensures !Truthy(generateScore) ==> r["message"] == JStr(GenerationMessage(GenerationOf(reply)))
    ensures Truthy(generateScore) ==> r["message"] == JStr(GenerationMessage(GenerationOf(reply)) + " with MusicXML score")
    ensures Truthy(generateScore) ==> r["musicxml"] == JStr(CreatePlaceholderMusicXml(HummingTitle, today))
  {
    var g := GenerationOf(reply);
    var result := map["success" := JBool(true), "generated_audio" := AudioValue(g), "message" := JStr(GenerationMessage(g))];
    if Truthy(generateScore) then
      result["musicxml" := JStr(CreatePlaceholderMusicXml(HummingTitle, today))]
            ["message" := JStr(GenerationMessage(g) + " with MusicXML score")]
    else result
  }

  /** generate_music_from_humming, assembling the dict step by step. */
  method GenerateMusicFromHumming(hummingPath: Json, generateScore: Json, timestamp: Json, today: string, reply: HttpReply)
    returns (result: map<string, Json>)
    ensures result == GenerateResult(generateScore, today, reply)
  {
    // the inner try: the service's answer, or the exception that selects the fallback
    var generation := GenerationOf(reply);
    match generation {
      case Generated(audio) =>
        result := map["success" := JBool(true), "generated_audio" := audio, "message" := JStr(GeneratedMessage)];
      case Fallback(e) =>
        result := map["success" := JBool(true), "generated_audio" := JStr(""),
                      "message" := JStr("Placeholder response (MusicGen API unavailable: " + e + ")")];
    }
    assert result == map["success" := JBool(true), "generated_audio" := AudioValue(generation),
                         "message" := JStr(GenerationMessage(generation))];
    if Truthy(generateScore) {
      result := result["musicxml" := JStr(CreatePlaceholderMusicXml(HummingTitle, today))];
      assert result["message"] == JStr(GenerationMessage(generation));
      result := result["message" := JStr(result["message"].s + " with MusicXML score")];
    }
  }

  // ---------------------------------------------------------------------------
  // Calling a tool with **arguments

  /**
   * Binding `f(**arguments)` for a Python function with one required
   * parameter and two optional ones: the three values, or the TypeError's
   * message. An unknown key is reported before a missing required one.
   */
  function BindArguments(fn: string, required: string, opt1: string, default1: Json, opt2: string, arguments: Json)
    : (r: Result<(Json, Json, Json), string>)
    ensures !arguments.JObj? ==> r == Err(fn + "() argument after ** must be a mapping, not " + TypeName(arguments))
    ensures r.Ok? <==> arguments.JObj? && arguments.fields.Keys <= {required, opt1, opt2} && required in arguments.fields
    ensures r.Ok? ==> r.value == (arguments.fields[required], Get(arguments.fields, opt1, default1), Get(arguments.fields, opt2, JNull))
  {
    match arguments
    case JObj(m) =>
      if !(m.Keys <= {required, opt1, opt2}) then Err(fn + "() got an unexpected keyword argument")
      else if required !in m then Err(fn + "() missing 1 required positional argument: '" + required + "'")
      else Ok((m[required], Get(m, opt1, default1), Get(m, opt2, JNull)))
    case _ => Err(fn + "() argument after ** must be a mapping, not " + TypeName(arguments))
  }

  const WavTool: string := "wav_to_music_score"
  const HummingTool: string := "generate_music_from_humming"

  /** The outcomes of every external step one request may take, and the serialiser `json.dumps(_, indent=2)`. */
  datatype IndexEnv = IndexEnv(today: string, renderReply: HttpReply, genReply: HttpReply, dumps: Json -> string)

  /** The tool's result dict, or the message of the exception calling it raised. */
  function ToolResult(name: Json, arguments: Json, env: IndexEnv): (r: Result<map<string, Json>, string>)
    ensures name != JStr(WavTool) && name != JStr(HummingTool) ==> r == Err("Unknown tool: " + PyStr(name))
    ensures r.Ok? ==> "success" in r.value && r.value["success"] == JBool(true)
    ensures name == JStr(WavTool) ==>
              var b := BindArguments(WavTool, "wav_path", "render_svg", JBool(true), "timestamp", arguments);
              r == (if b.Ok? then Ok(ScoreResult(b.value.1, env.today, env.renderReply)) else Err(b.error))
    ensures name == JStr(HummingTool) ==>
              var b := BindArguments(HummingTool, "humming_path", "generate_score", JBool(true), "timestamp", arguments);
              r == (if b.Ok? then Ok(GenerateResult(b.value.1, env.today, env.genReply)) else Err(b.error))
  {
    if name == JStr(WavTool) then
      match BindArguments(WavTool, "wav_path", "render_svg", JBool(true), "timestamp", arguments)
      case Err(e) => Err(e)
      case Ok((_, renderSvg, _)) => Ok(ScoreResult(renderSvg, env.today, env.renderReply))
    else if name == JStr(HummingTool) then
      match BindArguments(HummingTool, "humming_path", "generate_score", JBool(true), "timestamp", arguments)
      case Err(e) => Err(e)
      case Ok((_, generateScore, _)) => Ok(GenerateResult(generateScore, env.today, env.genReply))
    else Err("Unknown tool: " + PyStr(name))
  }

  // ---------------------------------------------------------------------------
  // The dispatcher

  const InitializeResult: Json :=
    JObj(map[
      "protocolVersion" := JStr("2024-11-05"),
      "capabilities" := JObj(map["tools" := JObj(map[]), "resources" := JObj(map[]), "prompts" := JObj(map[])]),
      "serverInfo" := JObj(map["name" := JStr("MusicToolkit MCP Server"), "version" := JStr("1.14.0")])])

  const TimestampProperty: Json :=
    JObj(map["type" := JStr("string"), "description" := JStr("Optional timestamp for file naming")])

  const WavToolDescriptor: Json :=
    JObj(map[
      "name" := JStr(WavTool),
      "description" := JStr("Convert WAV audio files to MusicXML scores with optional SVG rendering"),
      "inputSchema" := JObj(map[
        "type" := JStr("object"),
        "properties" := JObj(map[
          "wav_path" := JObj(map["type" := JStr("string"), "description" := JStr("Path to WAV audio file")]),
          "render_svg" := JObj(map["type" := JStr("boolean"), "description" := JStr("Whether to render SVG"),
                                   "default" := JBool(true)]),
          "timestamp" := TimestampProperty]),
        "required" := JArr([JStr("wav_path")])])])

  const HummingToolDescriptor: Json :=
    JObj(map[
      "name" := JStr(HummingTool),
      "description" := JStr("Generate full music from humming audio using AI"),
      "inputSchema" := JObj(map[
        "type" := JStr("object"),
        "properties" := JObj(map[
          "humming_path" := JObj(map["type" := JStr("string"), "description" := JStr("Path to humming audio file")]),
          "generate_score" := JObj(map["type" := JStr("boolean"), "description" := JStr("Whether to generate music score"),
                                       "default" := JBool(true)]),
          "timestamp" := TimestampProperty]),
        "required" := JArr([JStr("humming_path")])])])

  const ToolsListResult: Json := JObj(map["tools" := JArr([WavToolDescriptor, HummingToolDescriptor])])

  const KnownMethods: set<Json> :=
    {JStr("initialize"), JStr("tools/list"), JStr("tools/call"), JStr("resources/list"), JStr("prompts/list")}

  /** The payload for the fields read with `.get`; everything inside the `try` ends as a result or a -32603. */
  function Dispatch(rpcMethod: Json, params: Json, env: IndexEnv): (p: Payload)
    ensures StandardCode(p) && (p.Error? ==> p.code != InvalidParams)
    ensures (rpcMethod !in KnownMethods) <==> p == Error(MethodNotFound, "Method not found: " + PyStr(rpcMethod))
    ensures rpcMethod == JStr("resources/list") ==> p == Result(JObj(map["resources" := JArr([])]))
    ensures rpcMethod == JStr("prompts/list") ==> p == Result(JObj(map["prompts" := JArr([])]))
    ensures rpcMethod == JStr("tools/call") && !params.JObj? ==>
              p == Error(InternalError, "Internal error: " + NoGetMessage(params))
    ensures rpcMethod == JStr("tools/call") && params.JObj? ==>
              var t := ToolResult(Get(params.fields, "name", JNull), Get(params.fields, "arguments", JObj(map[])), env);
              && (t.Ok? ==> p == Result(TextContent(env.dumps(JObj(t.value)))))
              && (t.Err? ==> p == Error(InternalError, "Internal error: " + t.error))
  {
    if rpcMethod == JStr("initialize") then Result(InitializeResult)
    else if rpcMethod == JStr("tools/list") then Result(ToolsListResult)
    else if rpcMethod == JStr("tools/call") then
      if !params.JObj? then Error(InternalError, "Internal error: " + NoGetMessage(params))
      else
        match ToolResult(Get(params.fields, "name", JNull), Get(params.fields, "arguments", JObj(map[])), env)
        case Ok(result) => Result(TextContent(env.dumps(JObj(result))))
        case Err(e) => Error(InternalError, "Internal error: " + e)
    else if rpcMethod == JStr("resources/list") then Result(JObj(map["resources" := JArr([])]))
    else if rpcMethod == JStr("prompts/list") then Result(JObj(map["prompts" := JArr([])]))
    else
      assert Error(MethodNotFound, "Method not found: " + PyStr(rpcMethod)).code == MethodNotFound;
      Error(MethodNotFound, "Method not found: " + PyStr(rpcMethod))
  }

  /**
   * handle_mcp_request. The three reads happen before the `try`, so a body
   * that is not a dict raises out of the function. Otherwise the response
   * carries the raw `id`, 0 when absent, whatever happened inside.
   */
  function HandleMcpRequest(data: Json, env: IndexEnv): (r: Handled)
    ensures r.Answered? <==> data.JObj?
    ensures !data.JObj? ==> r == Escaped(NoGetMessage(data))
    ensures data.JObj? ==>
              r == Answered(Response(Get(data.fields, "id", JInt(0)),
                                     Dispatch(Get(data.fields, "method", JNull), Get(data.fields, "params", JObj(map[])), env)))
  {
    match data
    case JObj(m) =>
      Answered(Response(Get(m, "id", JInt(0)), Dispatch(Get(m, "method", JNull), Get(m, "params", JObj(map[])), env)))
    case _ => Escaped(NoGetMessage(data))
  }

  /** Every answered request, whatever its shape, echoes its id (0 when absent) and uses a standard code. */
  lemma AnsweredEnvelope(m: map<string, Json>, env: IndexEnv)
    ensures var r := HandleMcpRequest(JObj(m), env);
            && r.Answered?
            && r.response.id == (if "id" in m then m["id"] else JInt(0))
            && StandardCode(r.response.payload)
            && var j := ToJson(r.response);
            && j.fields["jsonrpc"] == JStr("2.0") && ("result" in j.fields) != ("error" in j.fields)
  {
  }
}
