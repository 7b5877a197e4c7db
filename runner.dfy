/**
 * The test sections of main: their bodies (the loops that print SGR samples
 * and palette swatches), the fixed order in which main offers them, and
 * TestRunner, which runs a section exactly when its name survived resolution.
 */
module Runner {
  import opened Aliases
  import opened Output
  import opened Trace
  import opened Decimal

  /** SGR codes the basic section samples: attributes 1..29, then 50..75. */
  const BasicCodes: seq<int> := Range(1, 30) + Range(50, 76)
  /** Foreground codes: the eight colours, default 39, eight bright colours, 99. */
  const ForegroundCodes: seq<int> := Range(30, 38) + [39] + Range(90, 98) + [99]
  /** Background codes: the eight colours, default 49, eight bright colours, 109. */
  const BackgroundCodes: seq<int> := Range(40, 48) + [49] + Range(100, 108) + [109]

  /** Each background code is the foreground code in the same place plus 10. */
  lemma BackgroundIsForegroundPlusTen()
    ensures |BackgroundCodes| == |ForegroundCodes| == 18
    ensures forall k :: 0 <= k < 18 ==> BackgroundCodes[k] == ForegroundCodes[k] + 10
  {
  }

  /** A for loop calling print_sgr(i) for i = lo, ..., hi - 1. */
  method SampleRun(c: Console, lo: int, hi: int)
    requires c.Valid() && lo <= hi
    modifies c
    ensures c.Valid()
    ensures Appended(old(c.events), c.events, SampleEvents(Range(lo, hi)))
  {
    ghost var e0 := c.events;
    AppendedNothing(e0);
    for i := lo to hi
      invariant c.Valid()
      invariant Appended(e0, c.events, SampleEvents(Range(lo, i)))
    {
      ghost var (prev, r) := (c.events, c.inRow);
      c.PrintSgr(i);
      AfterSample(e0, prev, i, RowStep(r).1, SampleEvents(Range(lo, i)));
      SampleEventsSnoc(Range(lo, i), i);
      RangeSnoc(lo, i);
    }
  }

  /** A for loop writing the 256-colour swatches lo, ..., hi - 1; in_row is untouched. */
  method SwatchRun(c: Console, lo: int, hi: int)
    requires c.Valid() && lo <= hi
    modifies c
    ensures c.Valid() && c.inRow == old(c.inRow)
    ensures Appended(old(c.events), c.events, SwatchEvents(Range(lo, hi)))
  {
    ghost var e0 := c.events;
    AppendedNothing(e0);
    for s := lo to hi
      invariant c.Valid() && c.inRow == old(c.inRow)
      invariant Appended(e0, c.events, SwatchEvents(Range(lo, s)))
    {
      ghost var prev := c.events;
      c.Write(Swatch(s));
      AfterEvent(e0, prev, Swatch(s), SwatchEvents(Range(lo, s)));
      SwatchEventsSnoc(Range(lo, s), s);
      RangeSnoc(lo, s);
    }
  }

  lemma SampleEventsAppend(a: seq<int>, b: seq<int>)
    ensures SampleEvents(a + b) == SampleEvents(a) + SampleEvents(b)
  {
  }

  lemma SwatchRangeJoin(lo: int, mid: int, hi: int)
    requires lo <= mid <= hi
    ensures SwatchEvents(Range(lo, mid)) + SwatchEvents(Range(mid, hi)) == SwatchEvents(Range(lo, hi))
  {
    assert Range(lo, mid) + Range(mid, hi) == Range(lo, hi);
  }

  /** Lines 197-203: attributes 1..29, a line break, then 50..75. */
  method BasicBody(c: Console)
    requires c.Valid()
    modifies c
    ensures c.Valid()
    ensures Appended(old(c.events), c.events, SampleEvents(BasicCodes))
  {
    ghost var e0 := c.events;
    SampleRun(c, 1, 30);
    ghost var prev := c.events;
    c.Wrap();
    AfterLayout(e0, prev, Newline, SampleEvents(Range(1, 30)));
    prev := c.events;
    SampleRun(c, 50, 76);
    AppendedTrans(e0, prev, c.events, SampleEvents(Range(1, 30)), SampleEvents(Range(50, 76)));
    SampleEventsAppend(Range(1, 30), Range(50, 76));
  }

  /** print_sgr of one code. */
  method SampleOne(c: Console, v: int)
    requires c.Valid()
    modifies c
    ensures c.Valid()
    ensures Appended(old(c.events), c.events, SampleEvents([v]))
  {
    ghost var (prev, r) := (c.events, c.inRow);
    AppendedNothing(prev);
    c.PrintSgr(v);
    AfterSample(prev, prev, v, RowStep(r).1, []);
    assert SampleEvents([v]) == [] + [SgrSample(v)];
  }

  /**
   * Lines 205-223: the sixteen-colour foreground and background sections
   * share one shape, with base 30 or 40.
   */
  method StandardBody(c: Console, base: int)
    requires c.Valid()
    modifies c
    ensures c.Valid()
    ensures Appended(old(c.events), c.events,
                     SampleEvents(Range(base, base + 8) + [base + 9] + Range(base + 60, base + 68) + [base + 69]))
  {
    ghost var e0 := c.events;
    SampleRun(c, base, base + 8);
    ghost var e1 := c.events;
    SampleOne(c, base + 9);
    AppendedTrans(e0, e1, c.events, SampleEvents(Range(base, base + 8)), SampleEvents([base + 9]));
    SampleEventsAppend(Range(base, base + 8), [base + 9]);
    ghost var low := Range(base, base + 8) + [base + 9];
    ghost var prev := c.events;
    c.Wrap();
    AfterLayout(e0, prev, Newline, SampleEvents(low));
    prev := c.events;
    SampleRun(c, base + 60, base + 68);
    AppendedTrans(e0, prev, c.events, SampleEvents(low), SampleEvents(Range(base + 60, base + 68)));
    SampleEventsAppend(low, Range(base + 60, base + 68));
    prev := c.events;
    SampleOne(c, base + 69);
    AppendedTrans(e0, prev, c.events, SampleEvents(low + Range(base + 60, base + 68)), SampleEvents([base + 69]));
    SampleEventsAppend(low + Range(base + 60, base + 68), [base + 69]);
  }

  /** Lines 226-231: the label, the sixteen system colours 0..15, then reset and a line end. */
  method PaletteSystem(c: Console)
    requires c.Valid()
    modifies c
    ensures c.Valid() && c.inRow == old(c.inRow)
    ensures Appended(old(c.events), c.events, SwatchEvents(Range(0, 16)))
  {
    ghost var e0 := c.events;
    AppendedNothing(e0);
    ghost var prev := c.events;
    c.Write(Text("Std  "));
    AfterLayout(e0, prev, Text("Std  "), []);
    prev := c.events;
    SwatchRun(c, 0, 16);
    AppendedTrans(e0, prev, c.events, [], SwatchEvents(Range(0, 16)));
    assert [] + SwatchEvents(Range(0, 16)) == SwatchEvents(Range(0, 16));
    prev := c.events;
    c.Write(Reset);
    AfterLayout(e0, prev, Reset, SwatchEvents(Range(0, 16)));
    prev := c.events;
    c.Write(Newline);
    AfterLayout(e0, prev, Newline, SwatchEvents(Range(0, 16)));
  }

  /**
   * Lines 234-239, one row s of the colour cube: its offset label, the 36
   * swatches 16 + s*36 + t for t = 0..35, then reset and a line end.
   */
  method PaletteCubeRow(c: Console, s: int)
    requires c.Valid()
    modifies c
    ensures c.Valid() && c.inRow == old(c.inRow)
    ensures Appended(old(c.events), c.events, SwatchEvents(Range(16 + s * 36, 16 + s * 36 + 36)))
  {
    ghost var e0 := c.events;
    AppendedNothing(e0);
    ghost var prev := c.events;
    c.Write(Text(IntToString(s * 36)));
    AfterLayout(e0, prev, Text(IntToString(s * 36)), []);
    prev := c.events;
    ghost var row := SwatchEvents(Range(16 + s * 36, 16 + s * 36 + 36));
    SwatchRun(c, 16 + s * 36, 16 + s * 36 + 36);
    AppendedTrans(e0, prev, c.events, [], row);
    assert [] + row == row;
    prev := c.events;
    c.Write(Reset);
    AfterLayout(e0, prev, Reset, row);
    prev := c.events;
    c.Write(Newline);
    AfterLayout(e0, prev, Newline, row);
  }

  /**
   * Lines 225-247: sixteen system colours, the 6 x 36 colour cube from 16 on,
   * and the 24 grays from 232, each swatch on background 48;5;index.
   */
  method PaletteBody(c: Console)
    requires c.Valid()
    modifies c
    ensures c.Valid() && c.inRow == old(c.inRow)
    ensures Appended(old(c.events), c.events, SwatchEvents(Range(0, 256)))
  {
    ghost var e0 := c.events;
    PaletteSystem(c);
    for s := 0 to 6
      invariant c.Valid() && c.inRow == old(c.inRow)
      invariant Appended(e0, c.events, SwatchEvents(Range(0, 16 + s * 36)))
    {
      ghost var prev := c.events;
      PaletteCubeRow(c, s);
      AppendedTrans(e0, prev, c.events, SwatchEvents(Range(0, 16 + s * 36)),
                    SwatchEvents(Range(16 + s * 36, 16 + s * 36 + 36)));
      SwatchRangeJoin(0, 16 + s * 36, 16 + s * 36 + 36);
    }
    ghost var prev := c.events;
    c.Write(Text("Gray "));
    AfterLayout(e0, prev, Text("Gray "), SwatchEvents(Range(0, 232)));
    prev := c.events;
    SwatchRun(c, 232, 256);
    AppendedTrans(e0, prev, c.events, SwatchEvents(Range(0, 232)), SwatchEvents(Range(232, 256)));
    SwatchRangeJoin(0, 232, 256);
    prev := c.events;
    c.Write(Reset);
    AfterLayout(e0, prev, Reset, SwatchEvents(Range(0, 256)));
  }

  /** Lines 249-263: the truecolor grid, whose float sweep is not modelled. */
  method TrueColorBody(c: Console)
    requires c.Valid()
    modifies c
    ensures c.Valid() && c.inRow == old(c.inRow)
    ensures c.events == old(c.events) + [TrueColorGrid]
  {
    c.Write(TrueColorGrid);
  }

  /** The bodies main hands to TestRunner::test as callbacks. */
  datatype Body = Basic | Foreground | Background | Palette | TrueColor

  /** The foreground and background code lists are the two runs and two singletons StandardBody prints. */
  lemma StandardCodes()
    ensures Range(30, 38) + [39] + Range(90, 98) + [99] == ForegroundCodes
    ensures Range(40, 48) + [49] + Range(100, 108) + [109] == BackgroundCodes
  {
  }

  /** What a body shows: its samples, its swatches, or its grid; never a heading. */
  function BodyContribution(b: Body): seq<Event> {
    match b
    case Basic => SampleEvents(BasicCodes)
    case Foreground => SampleEvents(ForegroundCodes)
    case Background => SampleEvents(BackgroundCodes)
    case Palette => SwatchEvents(Range(0, 256))
    case TrueColor => [TrueColorGrid]
  }

  lemma BodyShowsNoHeading(b: Body)
    ensures forall e :: e in BodyContribution(b) ==> IsShown(e) && !e.Label?
  {
    match b
    case Basic => SampleEventsShown(BasicCodes);
    case Foreground => SampleEventsShown(ForegroundCodes);
    case Background => SampleEventsShown(BackgroundCodes);
    case Palette => SwatchEventsShown(Range(0, 256));
    case TrueColor =>
  }

  method RunBody(c: Console, b: Body)
    requires c.Valid()
    modifies c
    ensures c.Valid()
    ensures Appended(old(c.events), c.events, BodyContribution(b))
  {
    match b
    case Basic =>
      BasicBody(c);
    case Foreground =>
      StandardBody(c, 30);
      StandardCodes();
    case Background =>
      StandardBody(c, 40);
      StandardCodes();
    case Palette =>
      PaletteBody(c);
    case TrueColor =>
      ghost var prev := c.events;
      AppendedNothing(prev);
      TrueColorBody(c);
      AfterEvent(prev, prev, TrueColorGrid, []);
      assert [] + [TrueColorGrid] == [TrueColorGrid];
  }

  /** One section of main: its heading title, its leaf test name and its body. */
  datatype Section = Section(title: string, kind: string, body: Body)

  /** The sections in the order main offers them. */
  const Sections: seq<Section> := [
    Section("SGR: Basic", SgrBasic, Basic),
    Section("SGR: Foreground", SgrFg, Foreground),
    Section("SGR: Background", SgrBg, Background),
    Section("SGR: 256-Color", Sgr256, Palette),
    Section("SGR: RGB Color", SgrRgb, TrueColor)
  ]

  /** Every section main offers is named by a leaf test. */
  lemma SectionsAreLeafTests()
    ensures forall s :: s in Sections ==> s.kind in LeafTests
  {
    forall s | s in Sections
      ensures s.kind in LeafTests
    {
      var k :| 0 <= k < 5 && Sections[k] == s;
      assert Sections[k].kind in LeafTests;
    }
  }

  /** The heading print_label shows for a section: the title, then the test name in parentheses. */
  function Heading(title: string, kind: string): (h: string)
    ensures |h| == |title| + |kind| + 3
    ensures h[..|title|] == title && h[|title|..|title| + 2] == " ("
    ensures h[|title| + 2..|h| - 1] == kind && h[|h| - 1] == ')'
  {
    title + " (" + kind + ")"
  }

  /** The sections of ss whose test name is in types, in the order of ss. */
  function Selected(ss: seq<Section>, types: set<string>): (r: seq<Section>)
    ensures forall s :: s in r <==> s in ss && s.kind in types
    ensures |r| <= |ss|
  {
    if ss == [] then []
    else (if ss[0].kind in types then [ss[0]] else []) + Selected(ss[1..], types)
  }

  /** Selecting by a set that holds every test name keeps every section. */
  lemma {:induction false} SelectedEverything(ss: seq<Section>, types: set<string>)
    requires forall s :: s in ss ==> s.kind in types
    ensures Selected(ss, types) == ss
    decreases |ss|
  {
    if ss != [] {
      assert ss[0] in ss;
      forall s | s in ss[1..]
        ensures s.kind in types
      {
        assert s in ss;
      }
      SelectedEverything(ss[1..], types);
      assert [ss[0]] + ss[1..] == ss;
    }
  }

  /** Selecting by a set that holds no test name of ss keeps nothing. */
  lemma SelectedNothing(ss: seq<Section>, types: set<string>)
    requires forall s :: s in ss ==> s.kind !in types
    ensures Selected(ss, types) == []
  {
  }

  /** r is ss with some elements left out, the rest kept in their order. */
  predicate IsSubsequence(r: seq<Section>, ss: seq<Section>)
    decreases |ss|
  {
    if r == [] then true
    else if ss == [] then false
    else if r[0] == ss[0] then IsSubsequence(r[1..], ss[1..])
    else IsSubsequence(r, ss[1..])
  }

  lemma {:induction false} SelectedKeepsOrder(ss: seq<Section>, types: set<string>)
    ensures IsSubsequence(Selected(ss, types), ss)
    decreases |ss|
  {
    if ss != [] {
      SelectedKeepsOrder(ss[1..], types);
      var rest := Selected(ss[1..], types);
      if ss[0].kind in types {
        assert Selected(ss, types) == [ss[0]] + rest;
        assert ([ss[0]] + rest)[1..] == rest;
      } else {
        assert Selected(ss, types) == rest;
        if rest != [] {
          assert rest[0] in ss[1..];
        }
      }
    }
  }

  /** What one section shows when it runs: its heading, then its callback's output. */
  function Part(s: Section): seq<Event> {
    [Label(Heading(s.title, s.kind))] + BodyContribution(s.body)
  }

  /** What a list of sections shows when each runs in turn. */
  function Shows(ss: seq<Section>): seq<Event> {
    if ss == [] then [] else Part(ss[0]) + Shows(ss[1..])
  }

  /** What one section shows under types: its part when selected, nothing otherwise. */
  function SectionPart(s: Section, types: set<string>): seq<Event> {
    if s.kind in types then Part(s) else []
  }

  /** What the sections of ss show under types, tested one after another. */
  function Expected(ss: seq<Section>, types: set<string>): seq<Event> {
    if ss == [] then [] else SectionPart(ss[0], types) + Expected(ss[1..], types)
  }

  lemma {:induction false} ShowsAppend(a: seq<Section>, b: seq<Section>)
    ensures Shows(a + b) == Shows(a) + Shows(b)
    decreases |a|
  {
    if a == [] {
      assert a + b == b;
    } else {
      assert (a + b)[0] == a[0] && (a + b)[1..] == a[1..] + b;
      ShowsAppend(a[1..], b);
    }
  }

  /** Testing the sections one after another shows the selected sections' parts, in order. */
  lemma {:induction false} ExpectedIsShowsOfSelected(ss: seq<Section>, types: set<string>)
    ensures Expected(ss, types) == Shows(Selected(ss, types))
    decreases |ss|
  {
    if ss != [] {
      ExpectedIsShowsOfSelected(ss[1..], types);
      var head := if ss[0].kind in types then [ss[0]] else [];
      ShowsAppend(head, Selected(ss[1..], types));
      if ss[0].kind in types {
        assert head[1..] == [];
        assert Shows(head) == Part(ss[0]) + [];
      }
    }
  }

  /** The headings of a list of sections. */
  function Headings(ss: seq<Section>): seq<string> {
    if ss == [] then [] else [Heading(ss[0].title, ss[0].kind)] + Headings(ss[1..])
  }

  /** The headings a run of sections shows are theirs, in order: bodies show no heading. */
  lemma {:induction false} ShowsHeadings(ss: seq<Section>)
    ensures Labels(Shows(ss)) == Headings(ss)
    decreases |ss|
  {
    if ss != [] {
      ShowsHeadings(ss[1..]);
      var h := Heading(ss[0].title, ss[0].kind);
      var body := BodyContribution(ss[0].body);
      BodyShowsNoHeading(ss[0].body);
      LabelsNone(body);
      LabelsOfAppend([Label(h)], body);
      LabelsOfAppend(Part(ss[0]), Shows(ss[1..]));
      assert [Label(h)][1..] == [];
      assert Labels([Label(h)]) == [h];
    }
  }

  lemma ShowsCons(s: Section, ss: seq<Section>)
    ensures Shows([s] + ss) == Part(s) + Shows(ss)
  {
    assert ([s] + ss)[0] == s && ([s] + ss)[1..] == ss;
  }

  /** With every test selected, each heading is followed by exactly its own section's output. */
  lemma EverySectionInOrder()
    ensures Shows(Sections) ==
      [Label(Heading("SGR: Basic", SgrBasic))] + BodyContribution(Basic)
      + ([Label(Heading("SGR: Foreground", SgrFg))] + BodyContribution(Foreground)
      + ([Label(Heading("SGR: Background", SgrBg))] + BodyContribution(Background)
      + ([Label(Heading("SGR: 256-Color", Sgr256))] + BodyContribution(Palette)
      + [Label(Heading("SGR: RGB Color", SgrRgb)), TrueColorGrid])))
  {
    var ss := Sections;
    assert ss == [ss[0]] + ([ss[1]] + ([ss[2]] + ([ss[3]] + ([ss[4]] + []))));
    ShowsCons(ss[4], []);
    ShowsCons(ss[3], [ss[4]] + []);
    ShowsCons(ss[2], [ss[3]] + ([ss[4]] + []));
    ShowsCons(ss[1], [ss[2]] + ([ss[3]] + ([ss[4]] + [])));
    ShowsCons(ss[0], [ss[1]] + ([ss[2]] + ([ss[3]] + ([ss[4]] + []))));
  }

  /**
   * TestRunner: holds the resolved set of test names; test runs a section
   * exactly when its name is in that set.
   */
  class TestRunner {
    const types: set<string>

    constructor (inputTypes: set<string>)
      ensures types == Resolve(inputTypes)
    {
      var resolved := ResolveTypes(inputTypes);
      types := resolved;
    }

    /** The membership guard of test. */
    predicate Runs(kind: string) {
      kind in types
    }

    /** test: when kind is selected, the heading and then the callback's output. */
    method Test(c: Console, title: string, kind: string, body: Body)
      requires c.Valid()
      modifies c
      ensures c.Valid()
      ensures !Runs(kind) ==> c.events == old(c.events) && c.inRow == old(c.inRow)
      ensures Appended(old(c.events), c.events,
                       if Runs(kind) then [Label(Heading(title, kind))] + BodyContribution(body) else [])
    {
      ghost var e0 := c.events;
      AppendedNothing(e0);
      if Runs(kind) {
        c.PrintLabel(title + " (" + kind + ")");
        ghost var e1 := c.events;
        AfterHeading(e0, Heading(title, kind));
        RunBody(c, body);
        AppendedTrans(e0, e1, c.events, [Label(Heading(title, kind))], BodyContribution(body));
      }
    }

    /** Lines 197-263: the five sections, offered in their fixed order. */
    method RunSections(c: Console)
      requires c.Valid()
      modifies c
      ensures c.Valid()
      ensures Appended(old(c.events), c.events, Shows(Selected(Sections, types)))
    {
      ghost var e0 := c.events;
      Test(c, "SGR: Basic", SgrBasic, Basic);
      ghost var e1 := c.events;
      Test(c, "SGR: Foreground", SgrFg, Foreground);
      ghost var e2 := c.events;
      Test(c, "SGR: Background", SgrBg, Background);
      ghost var e3 := c.events;
      Test(c, "SGR: 256-Color", Sgr256, Palette);
      ghost var e4 := c.events;
      Test(c, "SGR: RGB Color", SgrRgb, TrueColor);
      ExpectedOfSections(e0, e1, e2, e3, e4, c.events, types);
      ExpectedIsShowsOfSelected(Sections, types);
    }
  }

  /** print_label's five events show just the heading. */
  lemma AfterHeading(e0: seq<Event>, heading: string)
    ensures Appended(e0, e0 + [Newline, Newline, Label(heading), Newline, Newline], [Label(heading)])
  {
    AppendedNothing(e0);
    AfterLayout(e0, e0, Newline, []);
    AfterLayout(e0, e0 + [Newline], Newline, []);
    assert e0 + [Newline] + [Newline] == e0 + [Newline, Newline];
    AfterEvent(e0, e0 + [Newline, Newline], Label(heading), []);
    assert e0 + [Newline, Newline] + [Label(heading)] == e0 + [Newline, Newline, Label(heading)];
    AfterLayout(e0, e0 + [Newline, Newline, Label(heading)], Newline, [Label(heading)]);
    assert e0 + [Newline, Newline, Label(heading)] + [Newline] == e0 + [Newline, Newline, Label(heading), Newline];
    AfterLayout(e0, e0 + [Newline, Newline, Label(heading), Newline], Newline, [Label(heading)]);
    assert e0 + [Newline, Newline, Label(heading), Newline] + [Newline]
        == e0 + [Newline, Newline, Label(heading), Newline, Newline];
  }

  lemma ExpectedOfSections(e0: seq<Event>, e1: seq<Event>, e2: seq<Event>, e3: seq<Event>,
                           e4: seq<Event>, e5: seq<Event>, types: set<string>)
    requires Appended(e0, e1, SectionPart(Sections[0], types))
    requires Appended(e1, e2, SectionPart(Sections[1], types))
    requires Appended(e2, e3, SectionPart(Sections[2], types))
    requires Appended(e3, e4, SectionPart(Sections[3], types))
    requires Appended(e4, e5, SectionPart(Sections[4], types))
    ensures Appended(e0, e5, Expected(Sections, types))
  {
    var p0, p1, p2, p3, p4 := SectionPart(Sections[0], types), SectionPart(Sections[1], types),
      SectionPart(Sections[2], types), SectionPart(Sections[3], types), SectionPart(Sections[4], types);
    assert Sections[4..][1..] == [];
    assert Expected(Sections[4..], types) == p4 + [];
    assert Sections[3..][1..] == Sections[4..];
    assert Expected(Sections[3..], types) == p3 + Expected(Sections[4..], types);
    assert Sections[2..][1..] == Sections[3..];
    assert Expected(Sections[2..], types) == p2 + Expected(Sections[3..], types);
    assert Sections[1..][1..] == Sections[2..];
    assert Expected(Sections[1..], types) == p1 + Expected(Sections[2..], types);
    assert Expected(Sections, types) == p0 + Expected(Sections[1..], types);
    AppendedNothing(e5);
    AppendedTrans(e4, e5, e5, p4, []);
    AppendedTrans(e3, e4, e5, p3, p4 + []);
    AppendedTrans(e2, e3, e5, p2, Expected(Sections[3..], types));
    AppendedTrans(e1, e2, e5, p1, Expected(Sections[2..], types));
    AppendedTrans(e0, e1, e5, p0, Expected(Sections[1..], types));
  }
}
