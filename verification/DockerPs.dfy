/** Parsing `docker ps -a --format '{{json .}}'`: one JSON object a line, each line on its own. */
module DockerPs {
  import opened Wrappers
  import opened Text

  datatype Container = Container(id: string, names: string, image: string, status: string, ports: string)

  /** What JSON.parse makes of a line: it throws, gives null, or gives a value whose five fields may be missing. */
  datatype Json =
    | Malformed
    | Null
    | Value(id: Option<string>, names: Option<string>, image: Option<string>, status: Option<string>,
            ports: Option<string>)

  type JsonParser = string -> Json

  datatype LineResult = Parsed(container: Container) | Unparseable | Throws

  /** The value of a field that is neither missing nor empty. */
  predicate Truthy(field: Option<string>) {
    field.Some? && field.value != []
  }

  /** Reading a property of null throws; anything else either gives a container or is skipped. */
  function ParseLine(json: JsonParser, line: string): LineResult {
    match json(line)
    case Malformed => Unparseable
    case Null => Throws
    case Value(id, names, image, status, ports) =>
      if Truthy(id) && Truthy(names) && Truthy(image) && Truthy(status)
      then Parsed(Container(id.value, names.value, image.value, status.value,
                            match ports case None => [] case Some(p) => p))
      else Unparseable
  }

  datatype Listing = Listing(containers: seq<Container>, skippedLines: nat)

  /** The non-blank lines, trimmed. */
  function MeaningfulLines(lines: seq<string>): seq<string> {
    if lines == [] then [] else Meaningful(lines[0]) + MeaningfulLines(lines[1..])
  }

  function Meaningful(line: string): seq<string> {
    if Trim(line) == [] then [] else [Trim(line)]
  }

  lemma {:induction false} MeaningfulLinesOfConcat(a: seq<string>, b: seq<string>)
    ensures MeaningfulLines(a + b) == MeaningfulLines(a) + MeaningfulLines(b)
  {
    hide Meaningful;
    if a == [] {
      assert a + b == b;
    } else {
      MeaningfulLinesOfConcat(a[1..], b);
      assert (a + b)[0] == a[0] && (a + b)[1..] == a[1..] + b;
      ConcatAssociates(Meaningful(a[0]), MeaningfulLines(a[1..]), MeaningfulLines(b));
    }
  }

  /** The listing of the given lines; None when one of them makes the parser throw. */
  function ListingOf(json: JsonParser, lines: seq<string>): Option<Listing> {
    if lines == [] then Some(Listing([], 0))
    else Both(ListingOfLine(json, lines[0]), ListingOf(json, lines[1..]))
  }

  function ListingOfLine(json: JsonParser, line: string): Option<Listing> {
    match ParseLine(json, line)
    case Throws => None
    case Unparseable => Some(Listing([], 1))
    case Parsed(container) => Some(Listing([container], 0))
  }

  function Both(a: Option<Listing>, b: Option<Listing>): Option<Listing> {
    if a.Some? && b.Some?
    then Some(Listing(a.value.containers + b.value.containers, a.value.skippedLines + b.value.skippedLines))
    else None
  }

  lemma BothUnit(a: Option<Listing>)
    ensures Both(Some(Listing([], 0)), a) == a == Both(a, Some(Listing([], 0)))
  {
    if a.Some? {
      assert [] + a.value.containers == a.value.containers + [] == a.value.containers;
    }
  }

  lemma BothAssociative(a: Option<Listing>, b: Option<Listing>, c: Option<Listing>)
    ensures Both(Both(a, b), c) == Both(a, Both(b, c))
  {
    if a.Some? && b.Some? && c.Some? {
      var x, y, z := a.value.containers, b.value.containers, c.value.containers;
      assert x + y + z == x + (y + z);
    }
  }

  lemma ListingOfOne(json: JsonParser, line: string)
    ensures ListingOf(json, [line]) == ListingOfLine(json, line)
  {
    assert [line][1..] == [];
    BothUnit(ListingOfLine(json, line));
  }

  lemma {:induction false} ListingOfConcat(json: JsonParser, a: seq<string>, b: seq<string>)
    ensures ListingOf(json, a + b) == Both(ListingOf(json, a), ListingOf(json, b))
  {
    if a == [] {
      assert a + b == b;
      BothUnit(ListingOf(json, b));
    } else {
      ListingOfConcat(json, a[1..], b);
      assert (a + b)[1..] == a[1..] + b;
      BothAssociative(ListingOfLine(json, a[0]), ListingOf(json, a[1..]), ListingOf(json, b));
    }
  }

  /** One more line, and a throw anywhere is a throw of the whole. */
  lemma ListingOfPrefix(json: JsonParser, lines: seq<string>, i: nat)
    requires i < |lines|
    ensures ListingOf(json, lines[..i + 1]) == Both(ListingOf(json, lines[..i]), ListingOfLine(json, lines[i]))
    ensures ListingOf(json, lines[..i + 1]) == None ==> ListingOf(json, lines) == None
  {
    assert lines[..i + 1] == lines[..i] + [lines[i]];
    ListingOfConcat(json, lines[..i], [lines[i]]);
    ListingOfOne(json, lines[i]);
    assert lines == lines[..i + 1] + lines[i + 1..];
    ListingOfConcat(json, lines[..i + 1], lines[i + 1..]);
  }

  function Listed(json: JsonParser, stdout: string): Option<Listing> {
    ListingOf(json, MeaningfulLines(Lines(stdout)))
  }

  /** Loops over the non-blank lines, collecting containers and counting the rest. */
  method ParseDockerPsOutput(json: JsonParser, stdout: string) returns (r: Option<Listing>)
    ensures r == Listed(json, stdout)
  {
    var lines := MeaningfulLines(Lines(stdout));
    var containers: seq<Container> := [];
    var skippedLines := 0;
    for i := 0 to |lines|
      invariant ListingOf(json, lines[..i]) == Some(Listing(containers, skippedLines))
    {
      ListingOfPrefix(json, lines, i);
      match ParseLine(json, lines[i]) {
        case Parsed(container) =>
          containers := containers + [container];
        case Unparseable =>
          assert containers + [] == containers;
          skippedLines := skippedLines + 1;
        case Throws =>
          return None;
      }
    }
    assert lines[..|lines|] == lines;
    return Some(Listing(containers, skippedLines));
  }

  /** Two outputs joined by a newline list the containers of both in order and skip the lines of both. */
  lemma ListedOfJoined(json: JsonParser, a: string, b: string)
    ensures Listed(json, a + ['\n'] + b) == Both(Listed(json, a), Listed(json, b))
  {
    LinesOfJoined(a, b);
    MeaningfulLinesOfConcat(Lines(a), Lines(b));
    ListingOfConcat(json, MeaningfulLines(Lines(a)), MeaningfulLines(Lines(b)));
  }

  lemma ListedOfOneLine(json: JsonParser, line: string)
    requires '\n' !in line && Trim(line) != []
    ensures Listed(json, line) == ListingOfLine(json, Trim(line))
  {
    LinesOfOneLine(line);
    assert MeaningfulLines([line]) == Meaningful(line) + MeaningfulLines([line][1..]) == [Trim(line)];
    ListingOfOne(json, Trim(line));
  }

  /** One more skipped line. */
  function OneMoreSkipped(l: Option<Listing>): Option<Listing> {
    if l.Some? then Some(l.value.(skippedLines := l.value.skippedLines + 1)) else None
  }

  lemma SkippedInBetween(a: Option<Listing>, b: Option<Listing>)
    ensures Both(Both(a, Some(Listing([], 1))), b) == OneMoreSkipped(Both(a, b))
  {
    if a.Some? {
      assert a.value.containers + [] == a.value.containers;
    }
  }

  /** A line that cannot be parsed costs one skipped line and changes nothing that the other lines give. */
  lemma UnparseableLineIsolated(json: JsonParser, a: string, bad: string, b: string)
    requires '\n' !in bad && Trim(bad) != [] && ParseLine(json, Trim(bad)) == Unparseable
    ensures Listed(json, a + ['\n'] + bad + ['\n'] + b) == OneMoreSkipped(Listed(json, a + ['\n'] + b))
  {
    hide Listed, Trim, Both, OneMoreSkipped, ParseLine;
    ListedOfJoined(json, a + ['\n'] + bad, b);
    ListedOfJoined(json, a, bad);
    ListedOfJoined(json, a, b);
    ListedOfOneLine(json, bad);
    SkippedInBetween(Listed(json, a), Listed(json, b));
  }

  /** Every non-blank line is accounted for once, and the parser throws exactly when some line is JSON null. */
  lemma {:induction false} EveryLineCounts(json: JsonParser, lines: seq<string>)
    ensures match ListingOf(json, lines)
            case None => exists line :: line in lines && json(line) == Null
            case Some(l) =>
              |l.containers| + l.skippedLines == |lines| && forall line :: line in lines ==> json(line) != Null
  {
    if lines != [] {
      EveryLineCounts(json, lines[1..]);
      assert lines[0] in lines;
      assert forall line :: line in lines[1..] ==> line in lines;
      assert forall line :: line in lines ==> line == lines[0] || line in lines[1..];
    }
  }

  /** Some line of the output, trimmed and not blank, is JSON null. */
  predicate HasNullLine(json: JsonParser, stdout: string) {
    exists line :: line in Lines(stdout) && Trim(line) != [] && json(Trim(line)) == Null
  }

  lemma {:induction false} MeaningfulLinesAre(lines: seq<string>, trimmed: string)
    ensures trimmed in MeaningfulLines(lines)
       <==> trimmed != [] && exists line :: line in lines && Trim(line) == trimmed
  {
    hide Trim;
    if lines != [] {
      MeaningfulLinesAre(lines[1..], trimmed);
      assert forall line :: line in lines <==> line == lines[0] || line in lines[1..];
    }
  }

  /** The parser throws exactly for an output with such a line. */
  lemma ThrowsIffNullLine(json: JsonParser, stdout: string)
    ensures Listed(json, stdout).None? <==> HasNullLine(json, stdout)
  {
    var lines := MeaningfulLines(Lines(stdout));
    EveryLineCounts(json, lines);
    if Listed(json, stdout).None? {
      var trimmed :| trimmed in lines && json(trimmed) == Null;
      MeaningfulLinesAre(Lines(stdout), trimmed);
    }
    if HasNullLine(json, stdout) {
      var line :| line in Lines(stdout) && Trim(line) != [] && json(Trim(line)) == Null;
      MeaningfulLinesAre(Lines(stdout), Trim(line));
    }
  }

  /** The containers of an output; None when parsing it throws. */
  function ContainersOf(json: JsonParser, stdout: string): Option<seq<Container>> {
    match Listed(json, stdout)
    case None => None
    case Some(listing) => Some(listing.containers)
  }

  // ---------- What the parser reads ----------

  /** The JSON of a container: its ID, Names, Image and Status, and its Ports or no Ports at all. */
  predicate Describes(json: Json, c: Container) {
    && json.Value?
    && json.id == Some(c.id) && json.names == Some(c.names) && json.image == Some(c.image)
    && json.status == Some(c.status)
    && (json.ports == Some(c.ports) || (json.ports == None && c.ports == []))
  }

  predicate IsComplete(c: Container) {
    c.id != [] && c.names != [] && c.image != [] && c.status != []
  }

  /** The k-th line is the JSON of the k-th container, white space around it or not. */
  predicate LinesDescribe(json: JsonParser, lines: seq<string>, containers: seq<Container>) {
    && |lines| == |containers|
    && forall k :: 0 <= k < |lines| ==>
         '\n' !in lines[k] && Trim(lines[k]) != [] && Describes(json(Trim(lines[k])), containers[k])
         && IsComplete(containers[k])
  }

  lemma DescribedLine(json: JsonParser, line: string, c: Container)
    requires Describes(json(line), c) && IsComplete(c)
    ensures ListingOfLine(json, line) == Some(Listing([c], 0))
  {
  }

  lemma {:induction false} DescribedLines(json: JsonParser, lines: seq<string>, containers: seq<Container>)
    requires LinesDescribe(json, lines, containers)
    ensures ListingOf(json, MeaningfulLines(lines)) == Some(Listing(containers, 0))
  {
    if lines != [] {
      DescribedLine(json, Trim(lines[0]), containers[0]);
      DescribedLines(json, lines[1..], containers[1..]);
      ListingOfConcat(json, Meaningful(lines[0]), MeaningfulLines(lines[1..]));
      ListingOfOne(json, Trim(lines[0]));
      assert [containers[0]] + containers[1..] == containers;
      hide Trim, Describes, ParseLine;
    }
  }

  /**
    Printing containers one a line and parsing the output gives back exactly these containers, in order and with every
    field in its place, and skips nothing.
   */
  lemma ListsWhatIsPrinted(json: JsonParser, lines: seq<string>, containers: seq<Container>)
    requires LinesDescribe(json, lines, containers) && lines != []
    ensures Listed(json, Join(lines, "\n")) == Some(Listing(containers, 0))
  {
    forall line | line in lines
      ensures '\n' !in line
    {
      var k :| 0 <= k < |lines| && lines[k] == line;
    }
    LinesOfJoin(lines);
    DescribedLines(json, lines, containers);
    hide Trim;
  }

  /** A field that a container cannot do without. */
  predicate IsAbsent(field: Option<string>) {
    field == None || field == Some([])
  }

  /** A line is skipped exactly when it is no JSON, or one of the four fields is missing or empty. */
  lemma SkippedIff(json: JsonParser, line: string)
    requires '\n' !in line && Trim(line) != []
    ensures Listed(json, line) == Some(Listing([], 1))
       <==> match json(Trim(line))
            case Malformed => true
            case Null => false
            case Value(id, names, image, status, _) =>
              IsAbsent(id) || IsAbsent(names) || IsAbsent(image) || IsAbsent(status)
  {
    hide Listed, Trim;
    ListedOfOneLine(json, line);
  }
}
