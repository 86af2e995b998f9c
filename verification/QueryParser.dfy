/** The parser of SDK Manager's release listing, and the listings it accepts. */
module QueryParser {
  import opened Common

  /** One stripped output line, as the header pattern and the shell splitter classify it. */
  datatype Line = Header(title: string) | Command(args: seq<string>) | Malformed | Noise

  datatype Release = Release(title: string, version: string, targets: seq<string>)

  datatype QueryError = BeforeHeader | BadQuoting | NotJetson | MissingOption | MissingValue | Conflicting | NoCommand
    | Unknown | Repeated

  // ----- Option values -----

  predicate IsOption(word: string) { |word| >= 2 && word[0] == '-' && word[1] == '-' }

  function IndexOf(args: seq<string>, option: string): (i: nat)
    ensures i <= |args| && (forall k :: 0 <= k < i ==> args[k] != option) && (i < |args| ==> args[i] == option)
  {
    if args == [] || args[0] == option then 0 else 1 + IndexOf(args[1..], option)
  }

  /** The word after the first occurrence of the option, unless it is missing or is itself an option. */
  function ArgumentValue(args: seq<string>, option: string): (r: Result<string, QueryError>)
    ensures r.Ok? ==> exists i ::
      0 <= i < |args| - 1 && args[i] == option && option !in args[..i] && args[i + 1] == r.value && !IsOption(r.value)
    ensures r == Err(MissingOption) <==> option !in args
  {
    var i := IndexOf(args, option);
    if i == |args| then Err(MissingOption)
    else if i + 1 >= |args| || IsOption(args[i + 1]) then Err(MissingValue)
    else Ok(args[i + 1])
  }

  // ----- The parser -----

  /** The variables of the line loop. */
  datatype Progress = Progress(releases: seq<Release>, title: Option<string>, version: Option<string>, targets: seq<string>)

  const START := Progress([], None, None, [])

  /** Closing the current entry: it must have offered something. */
  function Publish(p: Progress): Result<Progress, QueryError> {
    if p.title.None? then Ok(p)
    else if p.version.None? || p.targets == [] then Err(NoCommand)
    else Ok(Progress(p.releases + [Release(p.title.value, p.version.value, p.targets)], None, None, []))
  }

  function ReadCommand(p: Progress, args: seq<string>): Result<Progress, QueryError> {
    var product := ArgumentValue(args, "--product");
    if product.Err? then Err(product.error)
    else if product.value != "Jetson" then Err(NotJetson)
    else
      var version := ArgumentValue(args, "--version");
      var target := ArgumentValue(args, "--target");
      if version.Err? then Err(version.error)
      else if target.Err? then Err(target.error)
      else if p.version.Some? && p.version.value != version.value then Err(Conflicting)
      else Ok(p.(version := Some(version.value), targets := WithTarget(p.targets, target.value)))
  }

  function WithTarget(targets: seq<string>, target: string): seq<string> {
    if target in targets then targets else targets + [target]
  }

  function ReadLine(p: Progress, line: Line): Result<Progress, QueryError> {
    match line
    case Noise => Ok(p)
    case Header(title) =>
      var closed := Publish(p);
      if closed.Err? then closed else Ok(closed.value.(title := Some("JetPack " + title)))
    case Malformed => if p.title.None? then Err(BeforeHeader) else Err(BadQuoting)
    case Command(args) => if p.title.None? then Err(BeforeHeader) else ReadCommand(p, args)
  }

  function ReadLines(lines: seq<Line>): Result<Progress, QueryError> {
    if lines == [] then Ok(START)
    else
      var before := ReadLines(lines[..|lines| - 1]);
      if before.Err? then before else ReadLine(before.value, lines[|lines| - 1])
  }

  function Parse(lines: seq<Line>): Result<seq<Release>, QueryError> {
    var p := ReadLines(lines);
    if p.Err? then Err(p.error)
    else
      var closed := Publish(p.value);
      if closed.Err? then Err(closed.error) else Ok(closed.value.releases)
  }

  /** The line loop, which stops at the first line it cannot accept. */
  method ParseQueryOutput(lines: seq<Line>) returns (r: Result<seq<Release>, QueryError>)
    ensures r == Parse(lines)
  {
    hide ReadLine, Publish;
    var p := START;
    for i := 0 to |lines|
      invariant ReadLines(lines[..i]) == Ok(p)
    {
      assert lines[..i + 1][..i] == lines[..i];
      var next := ReadLine(p, lines[i]);
      if next.Err? {
        FailureStays(lines, i + 1, |lines|);
        assert lines[..|lines|] == lines;
        return Err(next.error);
      }
      p := next.value;
    }
    assert lines[..|lines|] == lines;
    var closed := Publish(p);
    if closed.Err? { return Err(closed.error); }
    return Ok(closed.value.releases);
  }

  lemma {:induction false} FailureStays(lines: seq<Line>, i: nat, j: nat)
    requires i <= j <= |lines| && ReadLines(lines[..i]).Err?
    ensures ReadLines(lines[..j]) == ReadLines(lines[..i])
    decreases j - i
  {
    if i < j {
      assert lines[..i + 1][..i] == lines[..i];
      FailureStays(lines, i + 1, j);
    }
  }

  // ----- The listings a sequence of releases stands behind -----

  /** A command line that offers `target` in `version`. */
  predicate Offers(line: Line, version: string, target: string) {
    line.Command? && ArgumentValue(line.args, "--product") == Ok("Jetson") &&
    ArgumentValue(line.args, "--version") == Ok(version) && ArgumentValue(line.args, "--target") == Ok(target)
  }

  /** Lines that say nothing except that `version` comes for exactly `targets`, first mentioned in that order. */
  ghost predicate Block(lines: seq<Line>, version: string, targets: seq<string>)
    decreases |lines|
  {
    if lines == [] then targets == []
    else
      var before, last := lines[..|lines| - 1], lines[|lines| - 1];
      if last.Noise? then Block(before, version, targets)
      else exists t, earlier ::
        Offers(last, version, t) && Block(before, version, earlier) && targets == WithTarget(earlier, t)
  }

  ghost predicate AllNoise(lines: seq<Line>) { forall i :: 0 <= i < |lines| ==> lines[i].Noise? }

  /** `lines` lists exactly `rs`: a header and a block for each, and nothing but noise before the first header. */
  ghost predicate Renders(lines: seq<Line>, rs: seq<Release>)
    decreases |rs|
  {
    if rs == [] then AllNoise(lines)
    else exists h :: EntryAt(lines, h, rs[|rs| - 1]) && Renders(lines[..h], rs[..|rs| - 1])
  }

  ghost predicate EntryAt(lines: seq<Line>, h: int, r: Release) {
    0 <= h < |lines| && lines[h].Header? && r.title == "JetPack " + lines[h].title &&
    r.targets != [] && Block(lines[h + 1..], r.version, r.targets)
  }

  /** What the loop's variables say about the lines read so far. */
  ghost predicate ReadSoFar(lines: seq<Line>, p: Progress) {
    if p.title.None? then p == START && AllNoise(lines)
    else exists h :: Open(lines, h, p)
  }

  ghost predicate Open(lines: seq<Line>, h: int, p: Progress) {
    0 <= h < |lines| && lines[h].Header? && p.title == Some("JetPack " + lines[h].title) &&
    Renders(lines[..h], p.releases) &&
    (if p.version.None? then p.targets == [] && AllNoise(lines[h + 1..])
     else p.targets != [] && Block(lines[h + 1..], p.version.value, p.targets))
  }

  lemma {:induction false} NoiseIsBlock(lines: seq<Line>, version: string)
    requires AllNoise(lines)
    ensures Block(lines, version, [])
    decreases |lines|
  {
    if lines != [] { NoiseIsBlock(lines[..|lines| - 1], version); }
  }

  lemma PublishedRenders(lines: seq<Line>, p: Progress)
    requires ReadSoFar(lines, p) && Publish(p).Ok?
    ensures Renders(lines, Publish(p).value.releases)
  {
    if p.title.Some? {
      var h :| Open(lines, h, p);
      var rs := Publish(p).value.releases;
      assert rs[..|rs| - 1] == p.releases;
      assert EntryAt(lines, h, rs[|rs| - 1]);
    }
  }

  lemma {:induction false} ReadLinesMeans(lines: seq<Line>)
    requires ReadLines(lines).Ok?
    ensures ReadSoFar(lines, ReadLines(lines).value)
    decreases |lines|
  {
    hide Publish, ReadCommand, Renders, Block, Offers;
    if lines != [] {
      var before, last := lines[..|lines| - 1], lines[|lines| - 1];
      ReadLinesMeans(before);
      ReadOneMore(before, ReadLines(before).value, last);
      assert lines == before + [last];
    }
  }

  lemma ReadOneMore(before: seq<Line>, p: Progress, last: Line)
    requires ReadSoFar(before, p) && ReadLine(p, last).Ok?
    ensures ReadSoFar(before + [last], ReadLine(p, last).value)
  {
    hide Renders, Block, Offers, ReadCommand;
    var lines, q := before + [last], ReadLine(p, last).value;
    assert lines[..|before|] == before;
    if last.Header? {
      hide Publish;
      PublishedRenders(before, p);
      assert Publish(p).value.version.None? && Publish(p).value.targets == [] by { PublishCloses(p, before); }
      assert lines[|before| + 1..] == [];
      assert Open(lines, |before|, q);
    } else if p.title.Some? {
      var h :| Open(before, h, p);
      assert lines[..h] == before[..h] && lines[h + 1..] == before[h + 1..] + [last];
      if last.Command? { CommandExtends(before[h + 1..], p, last); } else { NoiseExtends(before[h + 1..], p); }
      assert Open(lines, h, q);
    }
  }

  lemma PublishCloses(p: Progress, before: seq<Line>)
    requires ReadSoFar(before, p) && Publish(p).Ok?
    ensures Publish(p).value.version.None? && Publish(p).value.targets == []
  {}

  lemma NoiseExtends(block: seq<Line>, p: Progress)
    ensures p.version.Some? && Block(block, p.version.value, p.targets) ==> Block(block + [Noise], p.version.value, p.targets)
  {
    assert (block + [Noise])[..|block|] == block;
  }

  lemma CommandExtends(block: seq<Line>, p: Progress, line: Line)
    requires line.Command? && ReadCommand(p, line.args).Ok?
    requires if p.version.None? then p.targets == [] && AllNoise(block) else Block(block, p.version.value, p.targets)
    ensures var q := ReadCommand(p, line.args).value;
      q.version.Some? && q.targets != [] && Block(block + [line], q.version.value, q.targets) &&
      q.title == p.title && q.releases == p.releases
  {
    var q := ReadCommand(p, line.args).value;
    if p.version.None? { NoiseIsBlock(block, q.version.value); }
    assert (block + [line])[..|block|] == block;
    var t := ArgumentValue(line.args, "--target").value;
    assert Offers(line, q.version.value, t) && Block(block, q.version.value, p.targets) && q.targets == WithTarget(p.targets, t);
  }

  // ----- Every listing is read back -----

  lemma {:induction false} NoiseReads(lines: seq<Line>)
    requires AllNoise(lines)
    ensures ReadLines(lines) == Ok(START)
    decreases |lines|
  {
    if lines != [] { NoiseReads(lines[..|lines| - 1]); }
  }

  /** Reading a block after a header collects exactly what the block offers. */
  lemma {:induction false} BlockReads(head: seq<Line>, block: seq<Line>, version: string, targets: seq<string>)
    requires ReadLines(head).Ok? && Fresh(ReadLines(head).value) && Block(block, version, targets)
    ensures ReadLines(head + block) == Ok(ReadLines(head).value.(version := if targets == [] then None else Some(version), targets := targets))
    decreases |block|
  {
    if block == [] {
      assert head + block == head;
    } else {
      var before, last := block[..|block| - 1], block[|block| - 1];
      assert (head + block)[..|head + block| - 1] == head + before;
      if last.Noise? {
        BlockReads(head, before, version, targets);
      } else {
        var t, earlier :| Offers(last, version, t) && Block(before, version, earlier) && targets == WithTarget(earlier, t);
        BlockReads(head, before, version, earlier);
      }
    }
  }

  /** The state just after a header. */
  predicate Fresh(p: Progress) { p.title.Some? && p.version.None? && p.targets == [] }

  lemma {:induction false} RenderedReads(lines: seq<Line>, rs: seq<Release>)
    requires Renders(lines, rs)
    ensures Parse(lines) == Ok(rs)
    decreases |rs|
  {
    hide Block, ReadLine, ReadLines, Publish;
    if rs == [] {
      NoiseReads(lines);
      ClosingNothing();
    } else {
      var last := rs[|rs| - 1];
      var h :| EntryAt(lines, h, last) && Renders(lines[..h], rs[..|rs| - 1]);
      RenderedReads(lines[..h], rs[..|rs| - 1]);
      HeaderReads(lines, h);
      assert lines == lines[..h + 1] + lines[h + 1..];
      BlockReads(lines[..h + 1], lines[h + 1..], last.version, last.targets);
      ClosingEntry(ReadLines(lines).value);
      assert rs == rs[..|rs| - 1] + [last];
    }
  }

  lemma ClosingNothing()
    ensures Publish(START) == Ok(START)
  {}

  lemma ClosingEntry(p: Progress)
    requires p.title.Some? && p.version.Some? && p.targets != []
    ensures Publish(p) == Ok(Progress(p.releases + [Release(p.title.value, p.version.value, p.targets)], None, None, []))
  {}

  lemma HeaderReads(lines: seq<Line>, h: nat)
    requires h < |lines| && lines[h].Header? && ReadLines(lines[..h]).Ok? && Publish(ReadLines(lines[..h]).value).Ok?
    ensures ReadLines(lines[..h + 1]) ==
      Ok(Progress(Publish(ReadLines(lines[..h]).value).value.releases, Some("JetPack " + lines[h].title), None, []))
  {
    hide Publish;
    ClosedIsEmpty(lines[..h]);
    assert lines[..h + 1][..h] == lines[..h];
  }

  lemma ClosedIsEmpty(lines: seq<Line>)
    requires ReadLines(lines).Ok? && Publish(ReadLines(lines).value).Ok?
    ensures var p := Publish(ReadLines(lines).value).value; p.title.None? && p.version.None? && p.targets == []
  {
    ReadLinesMeans(lines);
  }

  /** Parsing answers `rs` exactly for the listings of `rs`; so every other input is refused. */
  lemma ParseInvertsRendering(lines: seq<Line>, rs: seq<Release>)
    ensures Parse(lines) == Ok(rs) <==> Renders(lines, rs)
  {
    if Parse(lines) == Ok(rs) {
      ReadLinesMeans(lines);
      PublishedRenders(lines, ReadLines(lines).value);
    }
    if Renders(lines, rs) { RenderedReads(lines, rs); }
  }

  // ----- Printing, noise and repetition -----

  function CommandLine(version: string, target: string): Line {
    Command(["sdkmanager", "--cli", "--product", "Jetson", "--version", version, "--target", target])
  }

  function PrintBlock(version: string, targets: seq<string>): seq<Line> {
    if targets == [] then [] else PrintBlock(version, targets[..|targets| - 1]) + [CommandLine(version, targets[|targets| - 1])]
  }

  predicate Printable(r: Release) {
    |r.title| > 8 && r.title[..8] == "JetPack " && Word(r.version) && r.targets != [] && Words(r.targets)
  }

  /** A word the shell splitter and the option lookup take for a value. */
  predicate Word(w: string) { !IsOption(w) }

  predicate Words(ws: seq<string>) {
    (forall i :: 0 <= i < |ws| ==> Word(ws[i])) && (forall i, j :: 0 <= i < j < |ws| ==> ws[i] != ws[j])
  }

  function Print(rs: seq<Release>): seq<Line>
    requires forall i :: 0 <= i < |rs| ==> Printable(rs[i])
  {
    if rs == [] then []
    else
      var last := rs[|rs| - 1];
      assert Printable(last);
      Print(rs[..|rs| - 1]) + [Header(last.title[8..])] + PrintBlock(last.version, last.targets)
  }

  lemma CommandLineOffers(version: string, target: string)
    requires Word(version) && Word(target)
    ensures Offers(CommandLine(version, target), version, target)
  {
    var args := CommandLine(version, target).args;
    assert IsOption("--product") && IsOption("--version") && IsOption("--target");
    IndexIs(args, "--product", 2);
    IndexIs(args, "--version", 4);
    assert !IsOption("Jetson");
    IndexIs(args, "--target", 6);
  }

  lemma IndexIs(args: seq<string>, option: string, i: nat)
    requires i < |args| && args[i] == option && forall k :: 0 <= k < i ==> args[k] != option
    ensures IndexOf(args, option) == i
  {}

  lemma {:induction false} PrintedBlock(version: string, targets: seq<string>)
    requires Word(version) && Words(targets)
    ensures Block(PrintBlock(version, targets), version, targets)
    decreases |targets|
  {
    hide Offers, CommandLine, Word;
    if targets != [] {
      var before, t := targets[..|targets| - 1], targets[|targets| - 1];
      PrintedBlock(version, before);
      CommandLineOffers(version, t);
      assert targets == WithTarget(before, t) by { assert targets == before + [t]; }
      BlockGrows(PrintBlock(version, before), CommandLine(version, t), version, before, t);
    }
  }

  lemma BlockGrows(lines: seq<Line>, line: Line, version: string, earlier: seq<string>, t: string)
    requires Block(lines, version, earlier) && Offers(line, version, t)
    ensures Block(lines + [line], version, WithTarget(earlier, t))
  {
    assert (lines + [line])[..|lines|] == lines;
  }

  /** Printing a list of releases and parsing it gives the list back. */
  lemma {:induction false} PrintThenParse(rs: seq<Release>)
    requires forall i :: 0 <= i < |rs| ==> Printable(rs[i])
    ensures Renders(Print(rs), rs) && Parse(Print(rs)) == Ok(rs)
    decreases |rs|
  {
    hide Block, PrintBlock, Parse, Printable;
    if rs != [] {
      var last, before := rs[|rs| - 1], rs[..|rs| - 1];
      PrintThenParse(before);
      PrintedEntry(Print(before), last);
    }
    RenderedReads(Print(rs), rs);
  }

  lemma PrintedEntry(head: seq<Line>, r: Release)
    requires Printable(r)
    ensures var lines := head + [Header(r.title[8..])] + PrintBlock(r.version, r.targets);
      EntryAt(lines, |head|, r) && lines[..|head|] == head
  {
    hide Block, PrintBlock, Word;
    PrintedBlock(r.version, r.targets);
    var lines := head + [Header(r.title[8..])] + PrintBlock(r.version, r.targets);
    assert lines[|head| + 1..] == PrintBlock(r.version, r.targets);
    assert r.title == r.title[..8] + r.title[8..];
  }

  /** Two beginnings that leave the loop in the same state cannot be told apart by what follows. */
  lemma {:induction false} SameContinuation(a: seq<Line>, b: seq<Line>, rest: seq<Line>)
    requires ReadLines(a) == ReadLines(b)
    ensures ReadLines(a + rest) == ReadLines(b + rest)
    decreases |rest|
  {
    if rest == [] {
      assert a + rest == a && b + rest == b;
    } else {
      var before := rest[..|rest| - 1];
      SameContinuation(a, b, before);
      assert (a + rest)[..|a + rest| - 1] == a + before && (b + rest)[..|b + rest| - 1] == b + before;
    }
  }

  /** Unrelated output anywhere in the listing changes nothing, not even which error is reported. */
  lemma NoiseIsIgnored(before: seq<Line>, after: seq<Line>)
    ensures Parse(before + [Noise] + after) == Parse(before + after)
  {
    assert (before + [Noise])[..|before|] == before;
    SameContinuation(before + [Noise], before, after);
  }

  /** Repeating an accepted command later in the same entry changes nothing. */
  lemma RepetitionIsIgnored(before: seq<Line>, command: Line, between: seq<Line>, after: seq<Line>)
    requires command.Command? && forall i :: 0 <= i < |between| ==> !between[i].Header?
    ensures Parse(before + [command] + between + [command] + after) == Parse(before + [command] + between + after)
  {
    var once := before + [command] + between;
    assert (before + [command])[..|before|] == before;
    var first := ReadLines(before + [command]);
    if first.Ok? {
      Remembered(before + [command], between, ArgumentValue(command.args, "--version").value, ArgumentValue(command.args, "--target").value);
    } else {
      ErrorPersists(before + [command], between);
    }
    assert (once + [command])[..|once|] == once;
    SameContinuation(once + [command], once, after);
  }

  lemma {:induction false} ErrorPersists(head: seq<Line>, rest: seq<Line>)
    requires ReadLines(head).Err?
    ensures ReadLines(head + rest).Err?
    decreases |rest|
  {
    if rest == [] {
      assert head + rest == head;
    } else {
      assert (head + rest)[..|head + rest| - 1] == head + rest[..|rest| - 1];
      ErrorPersists(head, rest[..|rest| - 1]);
    }
  }

  /** Within one entry the version stays and no target is forgotten. */
  lemma {:induction false} Remembered(head: seq<Line>, rest: seq<Line>, version: string, target: string)
    requires ReadLines(head).Ok? && Mentions(ReadLines(head).value, version, target)
    requires forall i :: 0 <= i < |rest| ==> !rest[i].Header?
    ensures ReadLines(head + rest).Ok? ==> Mentions(ReadLines(head + rest).value, version, target)
    decreases |rest|
  {
    if rest == [] {
      assert head + rest == head;
    } else {
      assert (head + rest)[..|head + rest| - 1] == head + rest[..|rest| - 1];
      Remembered(head, rest[..|rest| - 1], version, target);
    }
  }

  predicate Mentions(p: Progress, version: string, target: string) {
    p.title.Some? && p.version == Some(version) && target in p.targets
  }

  // ----- What callers rely on -----

  lemma {:induction false} BlockIsDistinct(lines: seq<Line>, version: string, targets: seq<string>)
    requires Block(lines, version, targets)
    ensures forall i, j :: 0 <= i < j < |targets| ==> targets[i] != targets[j]
    decreases |lines|
  {
    if lines != [] {
      var before, last := lines[..|lines| - 1], lines[|lines| - 1];
      if last.Noise? {
        BlockIsDistinct(before, version, targets);
      } else {
        var t, earlier :| Offers(last, version, t) && Block(before, version, earlier) && targets == WithTarget(earlier, t);
        BlockIsDistinct(before, version, earlier);
      }
    }
  }

  /** Every parsed release has at least one target and none twice. */
  lemma {:induction false} ParsedAreUsable(lines: seq<Line>, rs: seq<Release>, k: nat)
    requires Renders(lines, rs) && k < |rs|
    ensures rs[k].targets != [] && forall i, j :: 0 <= i < j < |rs[k].targets| ==> rs[k].targets[i] != rs[k].targets[j]
    decreases |rs|
  {
    var h :| EntryAt(lines, h, rs[|rs| - 1]) && Renders(lines[..h], rs[..|rs| - 1]);
    if k == |rs| - 1 {
      BlockIsDistinct(lines[h + 1..], rs[k].version, rs[k].targets);
    } else {
      ParsedAreUsable(lines[..h], rs[..|rs| - 1], k);
    }
  }

  function Matching(rs: seq<Release>, version: string): seq<Release> {
    if rs == [] then []
    else Matching(rs[..|rs| - 1], version) + if rs[|rs| - 1].version == version then [rs[|rs| - 1]] else []
  }

  function FindRelease(rs: seq<Release>, version: string): Result<Release, QueryError> {
    var found := Matching(rs, version);
    if |found| == 1 then Ok(found[0]) else if found == [] then Err(Unknown) else Err(Repeated)
  }

  lemma {:induction false} MatchingMeans(rs: seq<Release>, version: string)
    ensures Matching(rs, version) == [] <==> forall i :: 0 <= i < |rs| ==> rs[i].version != version
    ensures |Matching(rs, version)| == 1 ==> exists i :: OnlyMatch(rs, version, i) && Matching(rs, version)[0] == rs[i]
    ensures (exists i :: OnlyMatch(rs, version, i)) ==> |Matching(rs, version)| == 1
  {
    if rs != [] {
      var before := rs[..|rs| - 1];
      MatchingMeans(before, version);
      if rs[|rs| - 1].version != version {
        forall i | OnlyMatch(rs, version, i) ensures |Matching(rs, version)| == 1 { assert OnlyMatch(before, version, i); }
        if |Matching(rs, version)| == 1 {
          var i :| OnlyMatch(before, version, i) && Matching(before, version)[0] == before[i];
          assert OnlyMatch(rs, version, i);
        }
      } else {
        if |Matching(rs, version)| == 1 { assert OnlyMatch(rs, version, |rs| - 1); }
        forall i | OnlyMatch(rs, version, i) ensures i == |rs| - 1 {}
      }
    }
  }

  predicate OnlyMatch(rs: seq<Release>, version: string, i: int) {
    0 <= i < |rs| && rs[i].version == version && forall k :: 0 <= k < |rs| && k != i ==> rs[k].version != version
  }

  /** A release is found exactly when one entry, and only one, has that exact version. */
  lemma FindReleaseIsExact(rs: seq<Release>, version: string)
    ensures FindRelease(rs, version).Ok? <==> exists i :: OnlyMatch(rs, version, i)
    ensures FindRelease(rs, version).Ok? ==> exists i :: OnlyMatch(rs, version, i) && FindRelease(rs, version).value == rs[i]
    ensures FindRelease(rs, version) == Err(Unknown) <==> forall i :: 0 <= i < |rs| ==> rs[i].version != version
  {
    MatchingMeans(rs, version);
  }
}
