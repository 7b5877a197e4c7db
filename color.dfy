/**
 * The integer structure of the truecolor code: which channel of hsv_to_rgb's
 * intermediate colour receives the chroma C, the second component X or 0,
 * and the SGR parameter body "2;R;G;B" built from integer channels.
 */
module Color {
  import opened Wrappers
  import opened Decimal
  import opened Strings

  /** What hsv_to_rgb places in one channel of rgb_p before adding m. */
  datatype Part = Chroma | Second | Zero

  datatype Pattern = Pattern(r: Part, g: Part, b: Part)

  /** rgb_p as default-constructed: every channel 0. */
  const Unset := Pattern(Zero, Zero, Zero)

  /** The six sector patterns in the order of the if-chain. */
  const SectorPatterns: seq<Pattern> := [
    Pattern(Chroma, Second, Zero),
    Pattern(Second, Chroma, Zero),
    Pattern(Zero, Chroma, Second),
    Pattern(Zero, Second, Chroma),
    Pattern(Second, Zero, Chroma),
    Pattern(Chroma, Zero, Second)
  ]

  /**
   * The if-chain of hsv_to_rgb on the integer degree d = (int)h, with
   * Hp = d / 60 compared against the sector bounds; no branch leaves rgb_p unset.
   */
  function SectorPattern(d: int): (p: Pattern)
    ensures p == Unset <==> d < 0 || d > 360
    ensures p == Unset || p in SectorPatterns
  {
    var hp: real := d as real / 60.0;
    if 0.0 <= hp <= 1.0 then Pattern(Chroma, Second, Zero)
    else if 1.0 < hp <= 2.0 then Pattern(Second, Chroma, Zero)
    else if 2.0 < hp <= 3.0 then Pattern(Zero, Chroma, Second)
    else if 3.0 < hp <= 4.0 then Pattern(Zero, Second, Chroma)
    else if 4.0 < hp <= 5.0 then Pattern(Second, Zero, Chroma)
    else if 5.0 < hp <= 6.0 then Pattern(Chroma, Zero, Second)
    else Unset
  }

  /** Whether branch k (0 to 5) of the if-chain fires for degree d. */
  predicate Fires(k: int, d: int) {
    var hp: real := d as real / 60.0;
    if k == 0 then 0.0 <= hp <= 1.0 else k as real < hp <= (k + 1) as real
  }

  /** The sector of degree d: [0, 60] is sector 0, (60k, 60(k + 1)] is sector k. */
  function Sector(d: int): (k: nat)
    requires 0 <= d <= 360
    ensures k < 6
    ensures d <= 60 ==> k == 0
    ensures d > 60 ==> 60 * k < d <= 60 * (k + 1)
  {
    if d <= 60 then 0 else (d - 1) / 60
  }

  /** Over the asserted range exactly one branch fires: the one of Sector(d). */
  lemma ExactlyOneBranch(d: int)
    requires 0 <= d <= 360
    ensures Fires(Sector(d), d)
    ensures forall k :: 0 <= k < 6 && Fires(k, d) ==> k == Sector(d)
  {
  }

  /** The if-chain yields the pattern of d's sector, so rgb_p is never left unset. */
  lemma SectorPatternBySector(d: int)
    requires 0 <= d <= 360
    ensures SectorPattern(d) == SectorPatterns[Sector(d)]
    ensures SectorPattern(d) != Unset
  {
    ExactlyOneBranch(d);
  }

  /** The boundaries: degrees 0 and 60 share the first pattern, 360 gets the last. */
  lemma SectorBoundaries()
    ensures SectorPattern(0) == SectorPattern(60) == Pattern(Chroma, Second, Zero)
    ensures SectorPattern(61) == Pattern(Second, Chroma, Zero)
    ensures SectorPattern(360) == Pattern(Chroma, Zero, Second)
    ensures SectorPattern(-1) == SectorPattern(361) == Unset
    ensures forall d :: d < 0 || d > 360 ==> SectorPattern(d) == Unset
  {
  }

  /** Every pattern places C, X and 0 once each. */
  lemma PatternsArePermutations()
    ensures forall k :: 0 <= k < |SectorPatterns| ==>
      multiset{SectorPatterns[k].r, SectorPatterns[k].g, SectorPatterns[k].b} == multiset{Chroma, Second, Zero}
  {
  }

  /** sgr_rgb_from_color over integer channels: the body of a 38;... or 48;... sequence. */
  function TrueColorParam(r: int, g: int, b: int): (s: string)
    ensures Fields(s, ';') == ["2", IntToString(r), IntToString(g), IntToString(b)]
  {
    var rs, gs, bs := IntToString(r), IntToString(g), IntToString(b);
    FieldsOfField("2", ';', rs + ";" + (gs + ";" + bs));
    FieldsOfField(rs, ';', gs + ";" + bs);
    FieldsOfField(gs, ';', bs);
    FieldsOfLast(bs, ';');
    "2" + ";" + (rs + ";" + (gs + ";" + bs))
  }

  /** Reads a truecolor parameter body: "2", then exactly three integer fields. */
  function ParseTrueColorParam(s: string): Option<(int, int, int)> {
    var f := Fields(s, ';');
    if |f| == 4 && f[0] == "2" then
      match (ParseInt(f[1]), ParseInt(f[2]), ParseInt(f[3]))
      case (Some(r), Some(g), Some(b)) => Some((r, g, b))
      case _ => None
    else None
  }

  /** The terminal reads back exactly the channels that were written. */
  lemma ParseTrueColorParamRoundTrip(r: int, g: int, b: int)
    ensures ParseTrueColorParam(TrueColorParam(r, g, b)) == Some((r, g, b))
  {
    ParseIntToString(r);
    ParseIntToString(g);
    ParseIntToString(b);
  }

  /** Pure red at full value, as its parameter body. */
  lemma TrueColorParamOfRed()
    ensures TrueColorParam(255, 0, 0) == "2;255;0;0"
  {
    assert NatToString(25) == "25";
    assert NatToString(255) == "255";
  }
}
