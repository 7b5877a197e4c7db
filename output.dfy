/**
 * Standard output as a trace of events, and the global row counter in_row
 * that row_check, wrap and print_label maintain.
 */
module Output {
  /** What the program writes to standard output, without its exact bytes. */
  datatype Event =
    | SgrSample(code: int)   // print_sgr: the code, then "test" rendered with it
    | Swatch(index: int)     // two spaces on 256-colour background `index`
    | Text(text: string)     // plain text: a row caption
    | Label(text: string)    // print_label: a section heading after a reset
    | TrueColorGrid          // the truecolor swatch grid (its float sweep is not modelled)
    | Reset                  // ESC [ m
    | Newline                // std::endl

  /** in_row wraps after this many samples. */
  const RowWidth: nat := 8

  /** row_check on counter value r: the next value, and whether it ends the line. */
  function RowStep(r: nat): (next: (nat, bool))
    ensures next.0 < RowWidth
    ensures r < RowWidth ==> next.0 == (r + 1) % RowWidth && (next.1 <==> next.0 == 0)
  {
    if r + 1 >= RowWidth then (0, true) else (r + 1, false)
  }

  /** k calls of row_check from r: the final counter and the number of line ends. */
  function RowChecks(r: nat, k: nat): (nat, nat)
    decreases k
  {
    if k == 0 then (r, 0)
    else
      var (next, wrapped) := RowStep(r);
      var (last, lines) := RowChecks(next, k - 1);
      (last, lines + if wrapped then 1 else 0)
  }

  /** From r < 8, k calls leave (r + k) % 8 and end (r + k) / 8 lines. */
  lemma {:induction false} RowChecksCount(r: nat, k: nat)
    requires r < RowWidth
    ensures RowChecks(r, k) == ((r + k) % RowWidth, (r + k) / RowWidth)
    decreases k
  {
    if k > 0 {
      RowChecksCount(RowStep(r).0, k - 1);
    }
  }

  /** Starting from 0, k calls end k / 8 lines and leave k % 8. */
  lemma RowChecksFromZero(k: nat)
    ensures RowChecks(0, k) == (k % RowWidth, k / RowWidth)
  {
    RowChecksCount(0, k);
  }

  /** The codes of the SGR samples in a trace, in order. */
  function SgrCodes(es: seq<Event>): seq<int> {
    if es == [] then []
    else (if es[0].SgrSample? then [es[0].code] else []) + SgrCodes(es[1..])
  }

  /** The palette indices of the swatches in a trace, in order. */
  function Swatches(es: seq<Event>): seq<int> {
    if es == [] then []
    else (if es[0].Swatch? then [es[0].index] else []) + Swatches(es[1..])
  }

  /** The section headings in a trace, in order. */
  function Labels(es: seq<Event>): seq<string> {
    if es == [] then []
    else (if es[0].Label? then [es[0].text] else []) + Labels(es[1..])
  }

  /** Whether an event is part of what a section shows: a heading, a sample, a swatch or the grid. */
  predicate IsShown(e: Event) {
    e.Label? || e.SgrSample? || e.Swatch? || e.TrueColorGrid?
  }

  /** The headings, samples, swatches and grids of a trace in the order written, layout dropped. */
  function Shown(es: seq<Event>): (r: seq<Event>)
    ensures |r| <= |es|
  {
    if es == [] then []
    else (if IsShown(es[0]) then [es[0]] else []) + Shown(es[1..])
  }

  lemma {:induction false} LabelsOfAppend(a: seq<Event>, b: seq<Event>)
    ensures Labels(a + b) == Labels(a) + Labels(b)
    decreases |a|
  {
    if a == [] {
      assert a + b == b;
    } else {
      assert (a + b)[0] == a[0] && (a + b)[1..] == a[1..] + b;
      LabelsOfAppend(a[1..], b);
      var head := if a[0].Label? then [a[0].text] else [];
      assert Labels(a + b) == head + Labels(a[1..] + b);
      assert Labels(a) == head + Labels(a[1..]);
    }
  }

  lemma {:induction false} SgrCodesOfAppend(a: seq<Event>, b: seq<Event>)
    ensures SgrCodes(a + b) == SgrCodes(a) + SgrCodes(b)
    decreases |a|
  {
    if a == [] {
      assert a + b == b;
    } else {
      assert (a + b)[0] == a[0] && (a + b)[1..] == a[1..] + b;
      SgrCodesOfAppend(a[1..], b);
      var head := if a[0].SgrSample? then [a[0].code] else [];
      assert SgrCodes(a + b) == head + SgrCodes(a[1..] + b);
      assert SgrCodes(a) == head + SgrCodes(a[1..]);
    }
  }

  lemma {:induction false} SwatchesOfAppend(a: seq<Event>, b: seq<Event>)
    ensures Swatches(a + b) == Swatches(a) + Swatches(b)
    decreases |a|
  {
    if a == [] {
      assert a + b == b;
    } else {
      assert (a + b)[0] == a[0] && (a + b)[1..] == a[1..] + b;
      SwatchesOfAppend(a[1..], b);
      var head := if a[0].Swatch? then [a[0].index] else [];
      assert Swatches(a + b) == head + Swatches(a[1..] + b);
      assert Swatches(a) == head + Swatches(a[1..]);
    }
  }

  lemma {:induction false} ShownOfAppend(a: seq<Event>, b: seq<Event>)
    ensures Shown(a + b) == Shown(a) + Shown(b)
    decreases |a|
  {
    if a == [] {
      assert a + b == b;
    } else {
      assert (a + b)[0] == a[0] && (a + b)[1..] == a[1..] + b;
      ShownOfAppend(a[1..], b);
      var head := if IsShown(a[0]) then [a[0]] else [];
      assert Shown(a + b) == head + Shown(a[1..] + b);
      assert Shown(a) == head + Shown(a[1..]);
    }
  }

  /** Dropping layout keeps every heading, sample code and palette index, in order. */
  lemma {:induction false} ProjectionsOfShown(es: seq<Event>)
    ensures Labels(Shown(es)) == Labels(es)
    ensures SgrCodes(Shown(es)) == SgrCodes(es)
    ensures Swatches(Shown(es)) == Swatches(es)
    decreases |es|
  {
    if es != [] {
      ProjectionsOfShown(es[1..]);
      var head := if IsShown(es[0]) then [es[0]] else [];
      LabelsOfAppend(head, Shown(es[1..]));
      SgrCodesOfAppend(head, Shown(es[1..]));
      SwatchesOfAppend(head, Shown(es[1..]));
      assert Shown(es) == head + Shown(es[1..]);
      if IsShown(es[0]) {
        assert head[1..] == [];
      }
    }
  }

  /** A trace without headings has no labels. */
  lemma {:induction false} LabelsNone(es: seq<Event>)
    requires forall e :: e in es ==> !e.Label?
    ensures Labels(es) == []
    decreases |es|
  {
    if es != [] {
      assert es[0] in es;
      forall e | e in es[1..]
        ensures !e.Label?
      {
        assert e in es;
      }
      LabelsNone(es[1..]);
    }
  }

  /** The process-wide output state: in_row and what has been written. */
  class Console {
    var inRow: nat
    var events: seq<Event>

    /** in_row < 8 between calls. */
    ghost predicate Valid()
      reads this
    {
      inRow < RowWidth
    }

    constructor ()
      ensures Valid() && inRow == 0 && events == []
    {
      inRow := 0;
      events := [];
    }

    /** Writes one event that does not touch in_row. */
    method Write(e: Event)
      modifies this
      ensures inRow == old(inRow)
      ensures events == old(events) + [e]
    {
      events := events + [e];
    }

    /** row_check: count one sample and end the line after eight. */
    method RowCheck()
      modifies this
      ensures Valid()
      ensures (inRow, events != old(events)) == RowStep(old(inRow))
      ensures events == old(events) + if RowStep(old(inRow)).1 then [Newline] else []
    {
      inRow := inRow + 1;
      if inRow >= RowWidth {
        events := events + [Newline];
        inRow := 0;
      }
    }

    /** print_sgr: one sample of the code, then row_check. */
    method PrintSgr(value: int)
      modifies this
      ensures Valid()
      ensures inRow == RowStep(old(inRow)).0
      ensures events == old(events) + [SgrSample(value)]
                     + if RowStep(old(inRow)).1 then [Newline] else []
    {
      Write(SgrSample(value));
      RowCheck();
    }

    /** wrap: end the line and restart the row. */
    method Wrap()
      modifies this
      ensures Valid() && inRow == 0
      ensures events == old(events) + [Newline]
    {
      events := events + [Newline];
      inRow := 0;
    }

    /** print_label: a blank line, the heading after a reset, a blank line; restarts the row. */
    method PrintLabel(value: string)
      modifies this
      ensures Valid() && inRow == 0
      ensures events == old(events) + [Newline, Newline, Label(value), Newline, Newline]
    {
      events := events + [Newline, Newline, Label(value), Newline, Newline];
      inRow := 0;
    }
  }
}
