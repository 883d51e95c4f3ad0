/**
 `LogModel` as the browser keeps it: section objects shared between `sections` and `openSections`
 and updated through either, counters and the partial line updated in place.
 */
module LogModelObjects {
  import opened Seqs
  import opened Decimal
  import opened LineFeed
  import opened LogParser
  import opened Text

  class LogSection {
    const name: string
    const title: string
    const firstLine: nat
    const startTs: Option<nat>
    const collapsed: bool
    var lastLine: nat
    var endTs: Option<nat>
    var hasError: bool
    var open: bool
    /** Position of this object in the parser's list of sections. */
    ghost const at: nat

    constructor (ghost at: nat, name: string, title: string, firstLine: nat, startTs: Option<nat>, collapsed: bool)
      ensures View() == Section(name, title, firstLine, firstLine, startTs, None, collapsed, false, true)
      ensures this.at == at
    {
      this.at := at;
      this.name := name;
      this.title := title;
      this.firstLine := firstLine;
      this.startTs := startTs;
      this.collapsed := collapsed;
      lastLine := firstLine;
      endTs := None;
      hasError := false;
      open := true;
    }

    function View(): Section
      reads this
    {
      Section(name, title, firstLine, lastLine, startTs, endTs, collapsed, hasError, open)
    }
  }

  ghost function Views(objects: seq<LogSection>): (v: seq<Section>)
    reads objects
    ensures |v| == |objects|
    ensures forall i | 0 <= i < |objects| :: v[i] == objects[i].View()
  {
    seq(|objects|, i requires 0 <= i < |objects| reads objects => objects[i].View())
  }

  ghost function Positions(objects: seq<LogSection>): (p: seq<nat>)
    ensures |p| == |objects|
    ensures forall i | 0 <= i < |objects| :: p[i] == objects[i].at
  {
    seq(|objects|, i requires 0 <= i < |objects| => objects[i].at)
  }

  lemma PositionsWithout(objects: seq<LogSection>, i: nat)
    requires i < |objects|
    ensures Positions(objects[..i] + objects[i + 1..]) == Positions(objects)[..i] + Positions(objects)[i + 1..]
  {
  }

  class LogModel {
    const rules: Rules
    var lines: seq<Line>
    var sections: seq<LogSection>
    var errorLines: nat
    var warnLines: nat
    var partial: string
    var nextNumber: nat
    var openSections: seq<LogSection>
    var version: nat
    /** Which section each row was attached to. */
    ghost var owners: seq<Option<nat>>
    ghost var Repr: set<LogSection>

    ghost predicate Valid()
      reads this
    {
      && (forall i | 0 <= i < |sections| :: sections[i] in Repr && sections[i].at == i)
      && (forall i | 0 <= i < |openSections| ::
            openSections[i].at < |sections| && sections[openSections[i].at] == openSections[i])
    }

    ghost function View(): Rows
      requires Valid()
      reads this, Repr
    {
      Rows(lines, Views(sections), errorLines, warnLines, nextNumber, Positions(openSections), owners)
    }

    ghost function State(): Model
      requires Valid()
      reads this, Repr
    {
      Feed(View(), partial)
    }

    constructor (rules: Rules)
      ensures Valid() && State() == Fresh && this.rules == rules
    {
      this.rules := rules;
      lines, sections, errorLines, warnLines, partial, nextNumber := [], [], 0, 0, "", 1;
      openSections, version := [], 0;
      owners, Repr := [], {};
    }

    method Reset()
      requires Valid()
      modifies this
      ensures Valid() && State() == Fresh && Repr == {}
    {
      lines, sections, errorLines, warnLines, partial, nextNumber := [], [], 0, 0, "", 1;
      openSections, version := [], version + 1;
      owners, Repr := [], {};
    }

    /** Feed a raw chunk. Returns the number of lines it completed. */
    method Append(chunk: string) returns (added: nat)
      requires Valid()
      modifies this, Repr
      ensures Valid() && State() == LineFeed.Append(Pusher(rules), old(State()), chunk)
      ensures fresh(Repr - old(Repr))
      ensures added == if chunk == "" then 0 else Count(old(partial) + chunk, '\n')
    {
      if chunk == "" { return 0; }
      var text := partial + chunk;
      var parts := SplitOn(text, '\n');
      SplitLength(text, '\n');
      partial := Last(parts);
      parts := Init(parts);
      ghost var push := Pusher(rules);
      assert parts[0..] == parts;
      var i := 0;
      while i < |parts|
        invariant 0 <= i <= |parts|
        invariant Valid() && partial == Last(SplitOn(text, '\n'))
        invariant Fold(push, View(), parts[i..]) == Fold(push, old(View()), parts)
        invariant fresh(Repr - old(Repr))
      {
        assert parts[i..][0] == parts[i] && parts[i..][1..] == parts[i + 1..];
        FoldPush(rules, View(), parts[i..]);
        PushRaw(parts[i]);
        i := i + 1;
      }
      version := version + 1;
      return |parts|;
    }

    method Flush()
      requires Valid()
      modifies this, Repr
      ensures Valid() && State() == LineFeed.Flush(Pusher(rules), old(State()))
      ensures fresh(Repr - old(Repr))
    {
      if partial == "" { return; }
      FlushPush(rules, State());
      PushRaw(partial);
      partial := "";
      version := version + 1;
    }

    method PushRaw(raw: string)
      requires Valid()
      modifies this, Repr
      ensures Valid() && View() == LogParser.PushRaw(rules, old(View()), raw)
      ensures partial == old(partial)
      ensures fresh(Repr - old(Repr))
    {
      hide PeelOne, AfterPeeling;
      var rest := raw;
      var guard := 0;
      ghost var step := PeelOne(rules);
      while guard < MAX_MARKERS
        invariant 0 <= guard <= MAX_MARKERS
        invariant Valid() && partial == old(partial)
        invariant Iterate(step, (View(), rest), MAX_MARKERS - guard) == Peel(rules, old(View()), raw)
        invariant fresh(Repr - old(Repr))
      {
        ghost var before := View();
        var found, rest' := PeelMarker(rest);
        if !found { break; }
        assert step((before, rest)) == Some((View(), rest'));
        rest := rest';
        guard := guard + 1;
      }
      PushRest(raw, rest);
    }

    /** One turn of the marker loop: `found` is false when `rest` holds no marker. */
    method PeelMarker(rest: string) returns (found: bool, rest': string)
      requires Valid()
      modifies this, Repr
      ensures Valid() && partial == old(partial)
      ensures PeelOne(rules)((old(View()), rest)) == if found then Some((View(), rest')) else None
      ensures !found ==> View() == old(View()) && rest' == rest
      ensures fresh(Repr - old(Repr))
    {
      var start, end := rules.findStart(rest), rules.findEnd(rest);
      found, rest' := true, rest;
      if start.Some? && (end.None? || |start.value.before| <= |end.value.before|) {
        rest' := StartFound(start.value);
      } else if end.Some? {
        rest' := EndFound(end.value);
      } else {
        found := false;
      }
    }

    method StartFound(m: Marker) returns (rest: string)
      requires Valid()
      modifies this, Repr
      ensures Valid() && partial == old(partial)
      ensures (View(), rest) == ApplyStart(rules, old(View()), m)
      ensures fresh(Repr - old(Repr))
    {
      PushText(m.before);
      var title := SplitOn(m.after, ESC)[0];
      TitleIsPrefix(m.after);
      OpenSection(m.name, OrElse(Trim(title), m.name), Some(m.ts), Contains(m.options, "collapsed=true"));
      rest := m.after[|title|..];
    }

    method EndFound(m: Marker) returns (rest: string)
      requires Valid()
      modifies this, Repr
      ensures Valid() && partial == old(partial) && Repr == old(Repr)
      ensures (View(), rest) == ApplyEnd(rules, old(View()), m)
    {
      PushText(m.before);
      CloseSection(m.name, Some(m.ts));
      rest := m.after;
    }

    method PushText(before: string)
      requires Valid()
      modifies this, Repr
      ensures Valid() && View() == PushBefore(rules, old(View()), before)
      ensures partial == old(partial) && Repr == old(Repr)
    {
      if Trim(before) != "" { PushLine(before); }
    }

    /** What the line holds once its markers are off: a GitHub group, its end, nothing, or a row. */
    method PushRest(raw: string, rest: string)
      requires Valid()
      modifies this, Repr
      ensures Valid() && partial == old(partial)
      ensures View() == AfterPeeling(rules, old(View()), raw, rest)
      ensures fresh(Repr - old(Repr))
    {
      var group := rules.githubGroup(rest);
      if group.Some? {
        var name := "group-" + NatToString(nextNumber);
        OpenSection(name, OrElse(Trim(group.value), name), None, false);
      } else if rules.githubEnd(rest) {
        if openSections != [] {
          CloseSection(Last(openSections).name, None);
        }
      } else if rest != "" || raw == "" {
        PushLine(rest);
      }
    }

    method PushLine(raw: string)
      requires Valid()
      modifies this, Repr
      ensures Valid() && View() == LogParser.PushLine(rules, old(View()), raw)
      ensures partial == old(partial) && Repr == old(Repr)
    {
      hide Classify, Touched;
      ghost var want := LogParser.PushLine(rules, View(), raw);
      var level := Classify(rules, raw);
      var name := AttachRow(level);
      assert Views(sections) == want.sections;
      CountRow(level);
      assert errorLines == want.errorLines && warnLines == want.warnLines;
      AddRow(Line(nextNumber, raw, level, name, false), TopSection(old(View())));
      assert Views(sections) == want.sections;
      assert lines == want.lines && owners == want.owners;
    }

    /** The next row joins the innermost open section, whose name is returned. */
    method AttachRow(level: Level) returns (name: Option<string>)
      requires Valid()
      modifies Repr
      ensures Valid()
      ensures openSections == [] ==> name == None && Views(sections) == old(Views(sections))
      ensures openSections != [] ==>
                var k := Last(Positions(openSections));
                && name == Some(old(Views(sections))[k].name)
                && Views(sections) == old(Views(sections))[k := Touched(old(Views(sections))[k], nextNumber, level)]
    {
      if openSections == [] { return None; }
      var section := Last(openSections);
      assert Last(Positions(openSections)) == section.at;
      Touch(section, nextNumber, level);
      return Some(section.name);
    }

    method AddRow(line: Line, ghost owner: Option<nat>)
      requires Valid()
      modifies this`lines, this`owners, this`nextNumber
      ensures Valid()
      ensures lines == old(lines) + [line] && owners == old(owners) + [owner] && nextNumber == old(nextNumber) + 1
    {
      lines := lines + [line];
      owners := owners + [owner];
      nextNumber := nextNumber + 1;
    }

    method CountRow(level: Level)
      requires Valid()
      modifies this`errorLines, this`warnLines
      ensures Valid()
      ensures errorLines == old(errorLines) + if level.Error? then 1 else 0
      ensures warnLines == old(warnLines) + if level.Warn? then 1 else 0
    {
      if level.Error? {
        errorLines := errorLines + 1;
      } else if level.Warn? {
        warnLines := warnLines + 1;
      }
    }

    /** A row numbered `n` joins `section`. */
    method Touch(section: LogSection, n: nat, level: Level)
      requires Valid() && section.at < |sections| && sections[section.at] == section
      modifies section
      ensures Valid()
      ensures Views(sections) == old(Views(sections)[section.at := Touched(section.View(), n, level)])
    {
      section.lastLine := n;
      if level.Error? { section.hasError := true; }
    }

    method OpenSection(name: string, title: string, startTs: Option<nat>, collapsed: bool)
      requires Valid()
      modifies this
      ensures Valid() && View() == LogParser.OpenSection(old(View()), name, title, startTs, collapsed)
      ensures partial == old(partial)
      ensures fresh(Repr - old(Repr))
    {
      ghost var want := LogParser.OpenSection(View(), name, title, startTs, collapsed);
      var section := new LogSection(|sections|, name, title, nextNumber, startTs, collapsed);
      assert Views(sections + [section]) == want.sections;
      sections := sections + [section];
      Repr := Repr + {section};
      openSections := openSections + [section];
      assert Positions(openSections) == want.openSections;
      AddRow(Line(nextNumber, title, Plain, Some(name), true), None);
    }

    method CloseSection(name: string, endTs: Option<nat>)
      requires Valid()
      modifies this, Repr
      ensures Valid() && View() == LogParser.CloseSection(old(View()), name, endTs)
      ensures EndsFirst(old(View()), View(), name, endTs)
      ensures partial == old(partial) && Repr == old(Repr)
    {
      hide EndsFirst, NoneNamed;
      ghost var want := LogParser.CloseSection(View(), name, endTs);
      CloseSectionExactly(View(), name, endTs);
      var index := FindIndex(name);
      if index == |openSections| { return; }
      var section := openSections[index];
      Shut(section, endTs);
      assert Views(sections) == want.sections;
      Unlink(index);
      assert Positions(openSections) == want.openSections;
    }

    method Unlink(index: nat)
      requires Valid() && index < |openSections|
      modifies this`openSections
      ensures Valid()
      ensures Positions(openSections) == old(Positions(openSections)[..index] + Positions(openSections)[index + 1..])
    {
      PositionsWithout(openSections, index);
      openSections := openSections[..index] + openSections[index + 1..];
    }

    /** `findIndex` over the open sections: the outermost one with this name. */
    method FindIndex(name: string) returns (index: nat)
      requires Valid()
      ensures index == FindOpen(Views(sections), Positions(openSections), name) <= |openSections|
    {
      index := 0;
      while index < |openSections| && openSections[index].name != name
        invariant 0 <= index <= |openSections|
        invariant FindOpen(Views(sections), Positions(openSections), name)
          == index + FindOpen(Views(sections), Positions(openSections)[index..], name)
      {
        assert Positions(openSections)[index..][1..] == Positions(openSections)[index + 1..];
        index := index + 1;
      }
    }

    method Shut(section: LogSection, endTs: Option<nat>)
      requires Valid() && section.at < |sections| && sections[section.at] == section
      modifies section
      ensures Valid()
      ensures Views(sections) == old(Views(sections)[section.at := section.View().(open := false, endTs := endTs)])
    {
      section.open := false;
      section.endTs := endTs;
    }
  }
}
