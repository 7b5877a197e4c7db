/**
 * What a stretch of output shows once layout is set aside: its headings,
 * SGR samples, palette swatches and grids, in the order they were written.
 */
module Trace {
  import opened Output

  /** `after` extends `before`, and what it adds shows exactly `t`, in order. */
  ghost predicate Appended(before: seq<Event>, after: seq<Event>, t: seq<Event>) {
    before <= after && Shown(after) == Shown(before) + t
  }

  /** Integers lo, lo + 1, ..., hi - 1. */
  function Range(lo: int, hi: int): (r: seq<int>)
    requires lo <= hi
    ensures |r| == hi - lo
    ensures forall k :: 0 <= k < |r| ==> r[k] == lo + k
  {
    seq(hi - lo, k => lo + k)
  }

  lemma RangeSnoc(lo: int, hi: int)
    requires lo <= hi
    ensures Range(lo, hi + 1) == Range(lo, hi) + [hi]
  {
  }

  /** One SGR sample per code, in order. */
  function SampleEvents(codes: seq<int>): seq<Event> {
    seq(|codes|, k requires 0 <= k < |codes| => SgrSample(codes[k]))
  }

  /** One 256-colour swatch per palette index, in order. */
  function SwatchEvents(indices: seq<int>): seq<Event> {
    seq(|indices|, k requires 0 <= k < |indices| => Swatch(indices[k]))
  }

  lemma SampleEventsSnoc(codes: seq<int>, v: int)
    ensures SampleEvents(codes + [v]) == SampleEvents(codes) + [SgrSample(v)]
  {
  }

  lemma SwatchEventsSnoc(indices: seq<int>, v: int)
    ensures SwatchEvents(indices + [v]) == SwatchEvents(indices) + [Swatch(v)]
  {
  }

  /** Samples are shown and are not headings. */
  lemma SampleEventsShown(codes: seq<int>)
    ensures forall e :: e in SampleEvents(codes) ==> e.SgrSample?
  {
  }

  /** Swatches are shown and are not headings. */
  lemma SwatchEventsShown(indices: seq<int>)
    ensures forall e :: e in SwatchEvents(indices) ==> e.Swatch?
  {
  }

  lemma AppendedNothing(e: seq<Event>)
    ensures Appended(e, e, [])
  {
  }

  lemma AppendedTrans(a: seq<Event>, b: seq<Event>, c: seq<Event>, t1: seq<Event>, t2: seq<Event>)
    requires Appended(a, b, t1) && Appended(b, c, t2)
    ensures Appended(a, c, t1 + t2)
  {
  }

  lemma PrefixOfAppend(a: seq<Event>, b: seq<Event>, tail: seq<Event>)
    requires a <= b
    ensures a <= b + tail
  {
    assert (b + tail)[..|a|] == b[..|a|];
  }

  lemma ShownOfTail(e0: seq<Event>, prev: seq<Event>, tail: seq<Event>, t: seq<Event>)
    requires Shown(prev) == Shown(e0) + t
    ensures Shown(prev + tail) == Shown(e0) + (t + Shown(tail))
  {
    ShownOfAppend(prev, tail);
  }

  lemma AppendedTail(e0: seq<Event>, prev: seq<Event>, tail: seq<Event>, t: seq<Event>)
    requires Appended(e0, prev, t)
    ensures Appended(e0, prev + tail, t + Shown(tail))
  {
    PrefixOfAppend(e0, prev, tail);
    ShownOfTail(e0, prev, tail, t);
  }

  /** One event: it is added to what is shown exactly when it is a heading, sample, swatch or grid. */
  lemma AfterEvent(e0: seq<Event>, prev: seq<Event>, e: Event, t: seq<Event>)
    requires Appended(e0, prev, t)
    ensures Appended(e0, prev + [e], t + if IsShown(e) then [e] else [])
  {
    AppendedTail(e0, prev, [e], t);
    assert [e][1..] == [];
  }

  /** One SGR sample, possibly followed by the line end of row_check. */
  lemma AfterSample(e0: seq<Event>, prev: seq<Event>, v: int, wrapped: bool, t: seq<Event>)
    requires Appended(e0, prev, t)
    ensures Appended(e0, prev + [SgrSample(v)] + (if wrapped then [Newline] else []), t + [SgrSample(v)])
  {
    AfterEvent(e0, prev, SgrSample(v), t);
    if wrapped {
      AfterEvent(e0, prev + [SgrSample(v)], Newline, t + [SgrSample(v)]);
      assert t + [SgrSample(v)] + [] == t + [SgrSample(v)];
    } else {
      assert prev + [SgrSample(v)] + [] == prev + [SgrSample(v)];
    }
  }

  /** A layout event (text, reset, line end) shows nothing. */
  lemma AfterLayout(e0: seq<Event>, prev: seq<Event>, e: Event, t: seq<Event>)
    requires Appended(e0, prev, t)
    requires !IsShown(e)
    ensures Appended(e0, prev + [e], t)
  {
    AfterEvent(e0, prev, e, t);
    assert t + [] == t;
  }
}
