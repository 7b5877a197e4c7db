/**
 * main: choosing the test string from the arguments, splitting it with the
 * istringstream loop, and running the sections it selects.
 */
module Cli {
  import opened Wrappers
  import opened Strings
  import opened Aliases
  import opened Output
  import opened Trace
  import opened Runner

  /** What argc and argv ask for. */
  datatype Request = Usage | Tests(text: string)

  /** argv includes the program name, so argc == |argv|. */
  function ChooseTests(argv: seq<string>): (r: Request)
    ensures r == Usage <==> |argv| == 2 && argv[1] == "--help"
    ensures |argv| == 1 ==> r == Tests("all")
    ensures |argv| == 2 && argv[1] != "--help" ==> r == Tests(argv[1])
    ensures |argv| != 1 && |argv| != 2 ==> r == Tests("")
  {
    var testsString := if |argv| == 1 then "all" else if |argv| == 2 then argv[1] else "";
    if |argv| == 2 && testsString == "--help" then Usage else Tests(testsString)
  }

  /** An input string stream: the text, the read position and the eof flag. */
  class StringStream {
    const text: string
    var pos: nat
    var eof: bool

    ghost predicate Valid()
      reads this
    {
      pos <= |text|
    }

    constructor (s: string)
      ensures Valid() && text == s && pos == 0 && !eof
    {
      text := s;
      pos := 0;
      eof := false;
    }

    /** peek: the next character without consuming it; at the end, sets eof and gives None. */
    method Peek() returns (c: Option<char>)
      requires Valid()
      modifies this
      ensures Valid() && pos == old(pos)
      ensures !old(eof) && pos < |text| ==> c == Some(text[pos]) && !eof
      ensures old(eof) || pos == |text| ==> c == None && eof
    {
      if !eof && pos < |text| {
        return Some(text[pos]);
      }
      eof := true;
      return None;
    }

    /** ignore(1): consume one character; at the end, set eof instead. */
    method Ignore()
      requires Valid()
      modifies this
      ensures Valid()
      ensures !old(eof) && old(pos) < |text| ==> pos == old(pos) + 1 && !eof
      ensures old(eof) || old(pos) == |text| ==> pos == old(pos) && eof
    {
      if !eof && pos < |text| {
        pos := pos + 1;
      } else {
        eof := true;
      }
    }
  }

  /** The index of the first ',' in s, or |s| when there is none. */
  function FirstComma(s: string): (k: nat)
    ensures k <= |s|
    ensures forall i :: 0 <= i < k ==> s[i] != ','
    ensures k < |s| <==> ',' in s
    ensures k < |s| ==> s[k] == ','
  {
    if s == [] then 0 else if s[0] == ',' then 0 else 1 + FirstComma(s[1..])
  }

  lemma {:induction false} FirstCommaAfter(a: string, rest: string)
    requires ',' !in a
    ensures FirstComma(a + [','] + rest) == |a|
    decreases |a|
  {
    var s := a + [','] + rest;
    if a != [] {
      assert s[1..] == a[1..] + [','] + rest;
      FirstCommaAfter(a[1..], rest);
    }
  }

  /**
   * The inner loop of the splitter (lines 184-191): append characters while
   * peek sees neither ',' nor the end. It stops in front of a ',' or with eof set.
   */
  method ReadName(iss: StringStream) returns (test: string)
    requires iss.Valid() && !iss.eof
    modifies iss
    ensures iss.Valid() && old(iss.pos) <= iss.pos
    ensures test == iss.text[old(iss.pos)..iss.pos]
    ensures ',' !in test
    ensures iss.eof <==> iss.pos == |iss.text|
    ensures !iss.eof ==> iss.text[iss.pos] == ','
  {
    test := "";
    ghost var start := iss.pos;
    while true
      invariant iss.Valid() && start <= iss.pos && !iss.eof
      invariant test == iss.text[start..iss.pos]
      invariant ',' !in test
      decreases |iss.text| - iss.pos
    {
      var c := iss.Peek();
      var next := iss.Peek();
      if next == Some(',') || iss.eof {
        break;
      }
      test := test + [c.value];
      iss.Ignore();
    }
  }

  /** How the splitter ends: with its set of names, or still looping when fuel ran out. */
  datatype Split = Done(names: set<string>) | Looping(names: set<string>, pos: nat)

  /**
   * The lambda that splits the test string (lines 178-195), allowed at most
   * `fuel` passes of its outer loop. The inner loop stops before a ',' but
   * never consumes it, so from the first comma on every pass reads nothing
   * and adds "": a string with a comma never finishes, whatever the fuel.
   */
  method SplitTests(testsString: string, fuel: nat) returns (r: Split)
    ensures ',' !in testsString ==> r == if fuel == 0 then Looping({}, 0) else Done({testsString})
    ensures ',' in testsString ==> r.Looping?
    ensures ',' in testsString && fuel > 0 ==>
      r.pos == FirstComma(testsString) &&
      r.names == {testsString[..FirstComma(testsString)]} + (if fuel > 1 then {""} else {})
  {
    var out: set<string> := {};
    var iss := new StringStream(testsString);
    var k := FirstComma(testsString);
    var passes: nat := 0;
    while !iss.eof
      invariant iss.Valid() && iss.text == testsString && passes <= fuel
      invariant passes == 0 ==> iss.pos == 0 && !iss.eof && out == {}
      invariant passes > 0 && ',' in testsString ==>
        iss.pos == k && !iss.eof && out == {testsString[..k]} + (if passes > 1 then {""} else {})
      invariant passes > 0 && ',' !in testsString ==> iss.eof && out == {testsString}
      decreases fuel - passes
    {
      if passes == fuel {
        return Looping(out, iss.pos);
      }
      ghost var start := iss.pos;
      var test := ReadName(iss);
      assert iss.eof ==> iss.pos == |testsString|;
      assert passes == 0 ==> start == 0 && testsString[start..|testsString|] == testsString;
      assert !iss.eof ==> testsString[iss.pos] == ',';
      out := out + {test};
      passes := passes + 1;
    }
    return Done(out);
  }

  /**
   * The as-written splitter on a list "a,b" as the usage text suggests: it
   * never finishes, and from the second pass on it only adds "" at the comma.
   */
  method CommaListStalls(a: string, b: string, fuel: nat) returns (r: Split)
    requires ',' !in a
    ensures r.Looping?
    ensures fuel > 1 ==> r == Looping({a, ""}, |a|)
  {
    var s := a + [','] + b;
    FirstCommaAfter(a, b);
    assert s[|a|] == ',';
    assert s[..|a|] == a;
    r := SplitTests(s, fuel);
  }

  /** The names a comma-separated test string lists. */
  function FieldSet(s: string): set<string> {
    set f | f in Fields(s, ',')
  }

  /**
   * The splitter as evidently intended: the same loops, with the ',' that
   * ends a name consumed, so every pass makes progress.
   */
  method SplitTestsCorrected(testsString: string) returns (names: set<string>)
    ensures names == FieldSet(testsString)
  {
    var out: set<string> := {};
    var iss := new StringStream(testsString);
    while !iss.eof
      invariant iss.Valid() && iss.text == testsString
      invariant !iss.eof ==> FieldSet(testsString) == out + FieldSet(testsString[iss.pos..])
      invariant iss.eof ==> out == FieldSet(testsString)
      decreases |testsString| - iss.pos + (if iss.eof then 0 else 1)
    {
      ghost var start := iss.pos;
      var test := ReadName(iss);
      ghost var k := iss.pos;
      if iss.eof {
        assert testsString[start..] == test;
        FieldSetWithoutComma(test);
      } else {
        assert testsString[start..] == test + [','] + testsString[k + 1..];
        FieldSetOfField(test, testsString[k + 1..]);
        iss.Ignore();
      }
      out := out + {test};
    }
    return out;
  }

  /** A test string without a comma names exactly itself. */
  lemma FieldSetWithoutComma(s: string)
    requires ',' !in s
    ensures FieldSet(s) == {s}
  {
    FieldsOfLast(s, ',');
  }

  /** A comma-free name and a comma, then the rest: that name and the rest's names. */
  lemma FieldSetOfField(a: string, rest: string)
    requires ',' !in a
    ensures FieldSet(a + [','] + rest) == {a} + FieldSet(rest)
  {
    FieldsOfField(a, ',', rest);
  }

  /** Two comma-free names joined by a comma name exactly those two. */
  lemma FieldSetOfPair(a: string, b: string)
    requires ',' !in a && ',' !in b
    ensures FieldSet(a + [','] + b) == {a, b}
  {
    FieldsOfField(a, ',', b);
    FieldsOfLast(b, ',');
    assert Fields(a + [','] + b, ',') == [a, b];
  }

  /** "sgr_fg,sgr_bg" names the two sixteen-colour tests. */
  lemma FieldSetOfList()
    ensures FieldSet("sgr_fg,sgr_bg") == {"sgr_fg", "sgr_bg"}
  {
    var a, b := "sgr_fg", "sgr_bg";
    assert ',' !in a && ',' !in b;
    assert "sgr_fg,sgr_bg" == a + [','] + b;
    FieldSetOfPair(a, b);
  }

  /** How a run of the program ends. */
  datatype Outcome = NotATerminal | ShowedUsage | Finished

  /** The exit status main returns. */
  function ExitStatus(o: Outcome): int {
    match o
    case NotATerminal => 0
    case ShowedUsage => 1
    case Finished => 0
  }

  /**
   * main, with whether standard output is a terminal as a parameter and the
   * corrected splitter; returns how it ended and what it wrote to standard output.
   */
  method RunProgram(isTerminal: bool, argv: seq<string>) returns (o: Outcome, events: seq<Event>)
    ensures !isTerminal ==> o == NotATerminal && events == []
    ensures isTerminal && ChooseTests(argv) == Usage ==> o == ShowedUsage && events == []
    ensures isTerminal && ChooseTests(argv).Tests? ==> o == Finished
    ensures ExitStatus(o) == if isTerminal && ChooseTests(argv) == Usage then 1 else 0
    ensures o == Finished ==>
      var names := Resolve(FieldSet(ChooseTests(argv).text));
      && Shown(events) == Shows(Selected(Sections, names))
      && Labels(events) == Headings(Selected(Sections, names))
      && |events| > 0 && events[|events| - 1] == Newline
    ensures o == Finished && |argv| == 1 ==> Shown(events) == Shows(Sections)
    ensures o == Finished && |argv| != 1 && |argv| != 2 ==> Shown(events) == [] && Labels(events) == []
  {
    if !isTerminal {
      return NotATerminal, [];
    }
    var request := ChooseTests(argv);
    if request == Usage {
      return ShowedUsage, [];
    }
    var names := SplitTestsCorrected(request.text);
    var runner := new TestRunner(names);
    var console := new Console();
    AppendedNothing([]);
    runner.RunSections(console);
    ghost var e := console.events;
    console.Write(Newline);
    ghost var selected := Selected(Sections, runner.types);
    AfterLayout([], e, Newline, Shows(selected));
    assert Shown([]) == [];
    assert Shown(console.events) == Shows(selected);
    ShowsHeadings(selected);
    ProjectionsOfShown(console.events);
    ArgumentCountSelection(argv);
    return Finished, console.events;
  }

  /** No argument selects every section; two or more select none. */
  lemma ArgumentCountSelection(argv: seq<string>)
    ensures |argv| == 1 ==> Selected(Sections, Resolve(FieldSet(ChooseTests(argv).text))) == Sections
    ensures |argv| != 1 && |argv| != 2 ==> Selected(Sections, Resolve(FieldSet(ChooseTests(argv).text))) == []
  {
    if |argv| == 1 {
      assert ChooseTests(argv).text == "all";
      FieldSetWithoutComma("all");
      NoArgumentRunsEverySection();
    } else if |argv| != 2 {
      assert ChooseTests(argv).text == "";
      FieldSetWithoutComma("");
      ResolveOneName("");
      EmptyTestStringRunsNothing();
    }
  }

  /** With no argument the test string is "all", and every section runs in order. */
  lemma NoArgumentRunsEverySection()
    ensures Selected(Sections, Resolve({"all"})) == Sections
  {
    ResolveAllGroup();
    SectionsAreLeafTests();
    SelectedEverything(Sections, LeafTests);
  }

  /** Two or more arguments leave the test string empty, which names no section. */
  lemma EmptyTestStringRunsNothing()
    ensures Selected(Sections, {""}) == []
  {
    SelectedNothing(Sections, {""});
  }
}
