/** Reading the output of a simulated package transaction: its rows, and the lists of what it would do. */
module AptSimulation {
  import opened Common
  import opened Sorting

  datatype Field = Install | Remove | Upgrade | Downgrade

  datatype Inst = Inst(name: string, nameArch: Option<string>, upgrading: bool, version: string, architecture: string)

  /** A stripped output line, as the section titles and the two row patterns classify it. */
  datatype Text = Blank | Section(field: Field) | OtherSection | Row(inst: Inst) | BadRow | Removal(package: string) | Words

  /** `names` are the words of the line that look like package names, without their trailing stars. */
  datatype Line = Line(indented: bool, names: seq<string>, text: Text)

  /** One action of the transaction. */
  datatype Step = Step(name: string, version: string, architecture: string, upgrade: bool)

  datatype AptError = Unparsable | ArchitectureMismatch | DuplicateStep

  // ----- Transaction rows -----

  function Key(s: Step): (string, string) { (s.name, s.architecture) }

  function StepOf(i: Inst): Step { Step(i.name, i.version, i.architecture, i.upgrading) }

  /** The actions the rows state, in output order; indentation and sections do not matter. */
  function Stated(lines: seq<Line>): seq<Step> { Gather(RowOf, lines) }

  function RowOf(line: Line): seq<Step> { if line.text.Row? then [StepOf(line.text.inst)] else [] }

  predicate Sound(line: Line) {
    !line.text.BadRow? &&
    (line.text.Row? && line.text.inst.nameArch.Some? ==> line.text.inst.nameArch.value == line.text.inst.architecture)
  }

  ghost predicate Parsable(lines: seq<Line>) {
    (forall i :: 0 <= i < |lines| ==> Sound(lines[i])) && DistinctKeys(Key, Stated(lines))
  }

  function Transaction(lines: seq<Line>): seq<Step> { Sort(By(Key), Stated(lines)) }

  method ParseSimulation(lines: seq<Line>) returns (r: Result<seq<Step>, AptError>)
    ensures r.Ok? <==> Parsable(lines)
    ensures r.Ok? ==> r.value == Transaction(lines)
  {
    hide DistinctKeys, Keys, Gather, Sort;
    NoSteps();
    var rows: seq<Step> := [];
    var seen: set<(string, string)> := {};
    for i := 0 to |lines|
      invariant rows == Stated(lines[..i]) && DistinctKeys(Key, rows)
      invariant forall k :: 0 <= k < i ==> Sound(lines[k])
      invariant seen == Keys(Key, rows)
    {
      GatherNext(RowOf, lines, i);
      if lines[i].text.BadRow? { return Err(Unparsable); }
      if !lines[i].text.Row? { continue; }
      var inst := lines[i].text.inst;
      if inst.nameArch.Some? && inst.nameArch.value != inst.architecture {
        assert !Sound(lines[i]);
        return Err(ArchitectureMismatch);
      }
      if (inst.name, inst.architecture) in seen {
        RepeatedKey(Key, RowOf, lines, i);
        assert !Parsable(lines);
        return Err(DuplicateStep);
      }
      KeysNext(Key, rows, StepOf(inst));
      seen := seen + {(inst.name, inst.architecture)};
      rows := rows + [StepOf(inst)];
    }
    assert lines[..|lines|] == lines;
    return Ok(Sort(By(Key), rows));
  }

  lemma NoSteps()
    ensures Keys(Key, []) == {} && DistinctKeys(Key, []) && Stated([]) == []
  {}

  /** The parsed transaction holds exactly the stated rows, ascending by package and architecture, each key once. */
  lemma TransactionIsCanonical(lines: seq<Line>)
    requires Parsable(lines)
    ensures multiset(Transaction(lines)) == multiset(Stated(lines))
    ensures Sorted(By(Key), Transaction(lines)) && DistinctKeys(Key, Transaction(lines))
  {
    hide By;
    OrderedBy(Key, Stated(lines));
    SortSorts(By(Key), Stated(lines));
    DistinctKeysPermute(Key, Stated(lines), Transaction(lines));
  }

  /** Reordering output lines changes neither whether the output parses nor the parsed transaction. */
  lemma TransactionIgnoresOrder(lines: seq<Line>, other: seq<Line>)
    requires multiset(lines) == multiset(other)
    ensures Parsable(lines) <==> Parsable(other)
    ensures Parsable(lines) ==> Transaction(lines) == Transaction(other)
  {
    hide Gather, Sound, By;
    GatherPermutes(RowOf, lines, other);
    SameMembers(lines, other);
    SoundTogether(lines, other);
    SoundTogether(other, lines);
    if DistinctKeys(Key, Stated(lines)) {
      DistinctKeysPermute(Key, Stated(lines), Stated(other));
      OrderedBy(Key, Stated(lines));
      SortIgnoresOrder(By(Key), Stated(lines), Stated(other));
    }
    if DistinctKeys(Key, Stated(other)) { DistinctKeysPermute(Key, Stated(other), Stated(lines)); }
  }

  lemma SoundTogether(lines: seq<Line>, other: seq<Line>)
    requires forall x :: x in lines <==> x in other
    ensures (forall i :: 0 <= i < |lines| ==> Sound(lines[i])) ==> forall i :: 0 <= i < |other| ==> Sound(other[i])
  {
    hide Sound;
    if forall i :: 0 <= i < |lines| ==> Sound(lines[i]) {
      forall i | 0 <= i < |other| ensures Sound(other[i]) {
        assert other[i] in lines;
      }
    }
  }

  // ----- Action lists -----

  datatype Diagnostic = Diagnostic(install: seq<string>, remove: seq<string>, upgrade: seq<string>, downgrade: seq<string>)

  /** The section in force after the given lines. */
  function Active(lines: seq<Line>): Option<Field> {
    if lines == [] then None
    else
      var before, last := Active(lines[..|lines| - 1]), lines[|lines| - 1];
      match last.text
      case Section(f) => Some(f)
      case OtherSection => None
      case Blank => before
      case _ => if before.Some? && last.indented then before else None
  }

  /** A line read as a list of packages. */
  predicate ReadAsList(active: Option<Field>, line: Line) {
    active.Some? && line.indented && !line.text.Section? && !line.text.OtherSection? && !line.text.Blank?
  }

  function Listed(lines: seq<Line>, f: Field): set<string> {
    if lines == [] then {}
    else
      var before, last := lines[..|lines| - 1], lines[|lines| - 1];
      Listed(before, f) + if ReadAsList(Active(before), last) && Active(before) == Some(f) then Named(last) else {}
  }

  function Named(line: Line): set<string> { set n | n in line.names }

  /** The packages of the removal rows that are not read as lists. */
  function Heard(lines: seq<Line>): set<string> {
    if lines == [] then {}
    else
      var before, last := lines[..|lines| - 1], lines[|lines| - 1];
      Heard(before) + if last.text.Removal? && !ReadAsList(Active(before), last) then {last.text.package} else {}
  }

  function ToRemove(lines: seq<Line>): set<string> { Heard(lines) + Listed(lines, Remove) }

  function Classified(lines: seq<Line>): set<string> {
    Listed(lines, Install) + Listed(lines, Upgrade) + Listed(lines, Downgrade)
  }

  function Rendered(s: Step): string { if s.architecture != "all" then s.name + ":" + s.architecture else s.name }

  predicate IsClassified(s: Step, classified: set<string>) { s.name in classified || Rendered(s) in classified }

  /** The rows no section mentions, under the list their operation names. */
  function Unlisted(steps: seq<Step>, classified: set<string>, upgrade: bool): set<string> {
    set s | s in steps && s.upgrade == upgrade && !IsClassified(s, classified) :: Rendered(s)
  }

  ghost predicate Reports(d: Diagnostic, lines: seq<Line>) {
    Lists(d.install, Listed(lines, Install) + Unlisted(Stated(lines), Classified(lines), false)) &&
    Lists(d.remove, ToRemove(lines)) &&
    Lists(d.upgrade, Listed(lines, Upgrade) + Unlisted(Stated(lines), Classified(lines), true)) &&
    Lists(d.downgrade, Listed(lines, Downgrade))
  }

  /** The variables of the diagnostic loop. */
  datatype Collected = Collected(install: set<string>, remove: set<string>, upgrade: set<string>, downgrade: set<string>)

  function Add(c: Collected, f: Field, names: set<string>): Collected {
    match f
    case Install => c.(install := c.install + names)
    case Remove => c.(remove := c.remove + names)
    case Upgrade => c.(upgrade := c.upgrade + names)
    case Downgrade => c.(downgrade := c.downgrade + names)
  }

  function CollectedFrom(lines: seq<Line>): Collected {
    Collected(Listed(lines, Install), ToRemove(lines), Listed(lines, Upgrade), Listed(lines, Downgrade))
  }

  method CollectLists(lines: seq<Line>) returns (c: Collected)
    ensures c == CollectedFrom(lines)
  {
    var active: Option<Field> := None;
    c := Collected({}, {}, {}, {});
    for i := 0 to |lines|
      invariant active == Active(lines[..i]) && c == CollectedFrom(lines[..i])
    {
      assert lines[..i + 1][..i] == lines[..i];
      var line := lines[i];
      if line.text.Section? {
        active := Some(line.text.field);
        continue;
      }
      if line.text.OtherSection? {
        active := None;
        continue;
      }
      if active.Some? && line.indented {
        if !line.text.Blank? { c := Add(c, active.value, set n | n in line.names); }
        continue;
      }
      if !line.text.Blank? { active := None; }
      if line.text.Removal? { c := c.(remove := c.remove + {line.text.package}); }
    }
    assert lines[..|lines|] == lines;
  }

  /** The diagnostic reports exactly what the sections, the removal rows and the transaction rows say. */
  method ParseDiagnostic(lines: seq<Line>) returns (r: Result<Diagnostic, AptError>)
    ensures r.Ok? <==> Parsable(lines)
    ensures r.Ok? ==> Reports(r.value, lines)
  {
    hide Parsable, Listed, Heard, Stated, Lists, Rendered, IsClassified;
    var c := CollectLists(lines);
    var steps := ParseSimulation(lines);
    if steps.Err? { return Err(steps.error); }
    SameRows(lines);
    var classified := c.install + c.upgrade + c.downgrade;
    var install, upgrade := c.install, c.upgrade;
    for i := 0 to |steps.value|
      invariant install == c.install + Unlisted(steps.value[..i], classified, false)
      invariant upgrade == c.upgrade + Unlisted(steps.value[..i], classified, true)
    {
      var s := steps.value[i];
      UnlistedNext(steps.value, i, classified);
      if IsClassified(s, classified) { continue; }
      if s.upgrade { upgrade := upgrade + {Rendered(s)}; } else { install := install + {Rendered(s)}; }
    }
    assert steps.value[..|steps.value|] == steps.value;
    var i := SortSet(install);
    var d := SortSet(c.remove);
    var u := SortSet(upgrade);
    var g := SortSet(c.downgrade);
    return Ok(Diagnostic(i, d, u, g));
  }

  function UnlistedAlone(s: Step, classified: set<string>, upgrade: bool): set<string> {
    if s.upgrade == upgrade && !IsClassified(s, classified) then {Rendered(s)} else {}
  }

  lemma UnlistedNext(steps: seq<Step>, i: nat, classified: set<string>)
    requires i < |steps|
    ensures forall u ::
      Unlisted(steps[..i + 1], classified, u) == Unlisted(steps[..i], classified, u) + UnlistedAlone(steps[i], classified, u)
  {
    hide Rendered, IsClassified;
    assert steps[..i + 1] == steps[..i] + [steps[i]];
    forall u, x
      ensures x in Unlisted(steps[..i + 1], classified, u) <==>
        x in Unlisted(steps[..i], classified, u) + UnlistedAlone(steps[i], classified, u)
    {}
  }

  lemma SameRows(lines: seq<Line>)
    requires Parsable(lines)
    ensures forall c, u :: Unlisted(Transaction(lines), c, u) == Unlisted(Stated(lines), c, u)
  {
    hide Rendered, IsClassified, Parsable, Transaction, Stated;
    TransactionIsCanonical(lines);
    SameMembers(Transaction(lines), Stated(lines));
  }

  // ----- What the diagnostic does not lose -----

  lemma StatedHolds(lines: seq<Line>, line: Line)
    requires line in lines && line.text.Row?
    ensures StepOf(line.text.inst) in Stated(lines)
  {
    GatherHolds(RowOf, lines);
    assert StepOf(line.text.inst) in RowOf(line);
  }

  /** Every install row is reported in one of the three lists, whatever sections surround it. */
  lemma NoInstallIsLost(lines: seq<Line>, d: Diagnostic, i: nat)
    requires Reports(d, lines) && i < |lines| && lines[i].text.Row?
    ensures var s := StepOf(lines[i].text.inst);
      var all := d.install + d.upgrade + d.downgrade; s.name in all || Rendered(s) in all
  {
    hide Listed, Heard, Stated, Rendered, Sorted;
    var s := StepOf(lines[i].text.inst);
    StatedHolds(lines, lines[i]);
    assert !IsClassified(s, Classified(lines)) ==> Rendered(s) in Unlisted(Stated(lines), Classified(lines), s.upgrade);
  }

  lemma {:induction false} HeardHolds(lines: seq<Line>, i: nat)
    requires i < |lines| && lines[i].text.Removal? && !ReadAsList(Active(lines[..i]), lines[i])
    ensures lines[i].text.package in Heard(lines)
  {
    if i < |lines| - 1 {
      assert lines[..|lines| - 1][..i] == lines[..i];
      HeardHolds(lines[..|lines| - 1], i);
    }
  }

  /** Every removal row that starts in the first column is reported for removal. */
  lemma NoRemovalIsLost(lines: seq<Line>, d: Diagnostic, i: nat)
    requires Reports(d, lines) && i < |lines| && lines[i].text.Removal? && !lines[i].indented
    ensures lines[i].text.package in d.remove
  {
    HeardHolds(lines, i);
  }

  /** What one line adds to the packages reported for removal. */
  function Contribution(lines: seq<Line>, i: nat): set<string>
    requires i < |lines|
  {
    var active, line := Active(lines[..i]), lines[i];
    if ReadAsList(active, line) then if active == Some(Remove) then Named(line) else {}
    else if line.text.Removal? then {line.text.package}
    else {}
  }

  lemma {:induction false} ToRemoveCollects(lines: seq<Line>, x: string)
    ensures x in ToRemove(lines) <==> exists i :: 0 <= i < |lines| && x in Contribution(lines, i)
  {
    hide Active, ReadAsList, Named;
    if lines != [] {
      var before, k := lines[..|lines| - 1], |lines| - 1;
      ToRemoveCollects(before, x);
      forall i | 0 <= i < k ensures Contribution(before, i) == Contribution(lines, i) {
        assert before[..i] == lines[..i];
      }
      assert x in ToRemove(lines) <==> x in ToRemove(before) || x in Contribution(lines, k);
    }
  }

  ghost predicate SaidElsewhere(lines: seq<Line>, i: nat, x: string) {
    exists j :: 0 <= j < |lines| && j != i && x in Contribution(lines, j)
  }

  /**
   * When exactly a removal row is heard, wherever it stands: unless it is indented below a section title. There it is
   * read as one more line of that section's list, so that its package is reported for removal only if the section is
   * the removal section and the package is one of the row's words; or if another line of the output says so.
   */
  lemma RemovalRowHeardIff(lines: seq<Line>, d: Diagnostic, i: nat)
    requires Reports(d, lines) && i < |lines| && lines[i].text.Removal?
    ensures var active, row := Active(lines[..i]), lines[i];
      row.text.package in d.remove <==>
        (!(active.Some? && row.indented) ||
         (active == Some(Remove) && row.text.package in row.names) ||
         SaidElsewhere(lines, i, row.text.package))
  {
    hide Active, Listed, Heard, Stated, Classified, Unlisted, ToRemove, Sorted;
    var x := lines[i].text.package;
    ToRemoveCollects(lines, x);
    assert x in d.remove <==> x in ToRemove(lines);
    assert x in Contribution(lines, i) || SaidElsewhere(lines, i, x) <==> x in ToRemove(lines);
  }

  lemma {:induction false} SwallowedStep(before: seq<Line>, row: Line, rest: seq<Line>)
    requires row.text.Removal? && row.indented && Active(before).Some? && Active(before) != Some(Remove)
    ensures Active(before + [row] + rest) == Active(before + rest)
    ensures ToRemove(before + [row] + rest) == ToRemove(before + rest)
  {
    if rest == [] {
      assert before + [row] + rest == before + [row] && before + rest == before;
      assert (before + [row])[..|before|] == before;
    } else {
      var shorter, last := rest[..|rest| - 1], rest[|rest| - 1];
      SwallowedStep(before, row, shorter);
      assert before + [row] + rest == before + [row] + shorter + [last] && before + rest == before + shorter + [last];
      SameNext(before + [row] + shorter, before + shorter, last);
    }
  }

  lemma SameNext(lines: seq<Line>, other: seq<Line>, last: Line)
    requires Active(lines) == Active(other) && ToRemove(lines) == ToRemove(other)
    ensures Active(lines + [last]) == Active(other + [last]) && ToRemove(lines + [last]) == ToRemove(other + [last])
  {
    LastOf(lines + [last], lines, last);
    LastOf(other + [last], other, last);
  }

  lemma TitleListsNothing(title: Line)
    requires title.text.Section?
    ensures Active([title]) == Some(title.text.field) && ToRemove([title]) == {}
  {
    assert [title][..0] == [];
    assert Listed([], Remove) == {} && Heard([]) == {};
  }

  lemma LastOf(lines: seq<Line>, before: seq<Line>, last: Line)
    requires lines == before + [last]
    ensures lines != [] && lines[..|lines| - 1] == before && lines[|lines| - 1] == last
  {}

  /**
   * A removal row indented below any title but that of the removal section is lost whatever it says and wherever it
   * stands: the removals reported are those of the output without the row.
   */
  lemma IndentedRemovalIsSwallowed(before: seq<Line>, row: Line, rest: seq<Line>, d: Diagnostic, e: Diagnostic)
    requires row.text.Removal? && row.indented && Active(before).Some? && Active(before) != Some(Remove)
    requires Reports(d, before + [row] + rest) && Reports(e, before + rest)
    ensures d.remove == e.remove
  {
    hide Lists, Listed, Stated, Classified, Unlisted, ToRemove, Active;
    SwallowedStep(before, row, rest);
    ListingIsUnique(d.remove, e.remove, ToRemove(before + rest));
  }

  /** Hence a title other than that of the removal section hides all the indented removal rows that follow it. */
  lemma {:induction false} TitleHidesRemovals(title: Line, rows: seq<Line>, d: Diagnostic)
    requires title.text.Section? && title.text.field != Remove
    requires forall r :: r in rows ==> r.text.Removal? && r.indented
    requires Reports(d, [title] + rows)
    ensures d.remove == []
  {
    NothingHeard(title, rows);
    ListsNothing(d.remove);
  }

  lemma {:induction false} NothingHeard(title: Line, rows: seq<Line>)
    requires title.text.Section? && title.text.field != Remove
    requires forall r :: r in rows ==> r.text.Removal? && r.indented
    ensures ToRemove([title] + rows) == {}
  {
    if rows == [] {
      assert [title] + rows == [title];
      TitleListsNothing(title);
    } else {
      var k := |rows| - 1;
      NothingHeard(title, rows[..k]);
      SwallowedAfterTitle(title, rows[..k]);
      SwallowedStep([title] + rows[..k], rows[k], []);
      assert [title] + rows[..k] + [rows[k]] + [] == [title] + rows && [title] + rows[..k] + [] == [title] + rows[..k];
    }
  }

  lemma {:induction false} SwallowedAfterTitle(title: Line, rows: seq<Line>)
    requires title.text.Section?
    requires forall r :: r in rows ==> r.text.Removal? && r.indented
    ensures Active([title] + rows) == Some(title.text.field)
  {
    if rows != [] {
      SwallowedAfterTitle(title, rows[..|rows| - 1]);
      LastOf([title] + rows, [title] + rows[..|rows| - 1], rows[|rows| - 1]);
    }
  }

  /** The output determines the diagnostic. */
  lemma DiagnosticIsUnique(lines: seq<Line>, d: Diagnostic, e: Diagnostic)
    requires Reports(d, lines) && Reports(e, lines)
    ensures d == e
  {
    hide Listed, Heard, Stated, Lists, Unlisted;
    ListingIsUnique(d.install, e.install, Listed(lines, Install) + Unlisted(Stated(lines), Classified(lines), false));
    ListingIsUnique(d.remove, e.remove, ToRemove(lines));
    ListingIsUnique(d.upgrade, e.upgrade, Listed(lines, Upgrade) + Unlisted(Stated(lines), Classified(lines), true));
    ListingIsUnique(d.downgrade, e.downgrade, Listed(lines, Downgrade));
  }
}
