/** The "all experiments" colouring of `byAll.py`: the palette built from the
    web-safe shades, the chain of fallbacks that decides an experiment's
    tissue, and the allocator that gives every tissue a colour of its own. */
module ByAll {
  import opened Common
  import opened Encode

  // ---------------------------------------------------------------------
  // The palette
  // ---------------------------------------------------------------------

  /** The six intensities of a web-safe colour component, as hex pairs. */
  const Levels: seq<string> := ["00", "33", "66", "99", "CC", "FF"]

  /** Shade `n` of the 6 x 6 x 6 web-safe cube, counted with red varying
      slowest and blue fastest. */
  function CubeShade(n: nat): string
    requires n < 216
  {
    Levels[n / 36] + Levels[n / 6 % 6] + Levels[n % 6]
  }

  /** The shade list the palette starts from: the web-safe cube in that
      order without its four darkest blues (000000 to 000099), that is the
      212 shades "0000CC", "0000FF", "003300", ..., "FFFFCC", "FFFFFF". */
  const WebShades: seq<string> := seq(212, i requires 0 <= i < 212 => CubeShade(i + 4))

  predicate IsHexDigit(c: char) {
    '0' <= c <= '9' || 'A' <= c <= 'F' || 'a' <= c <= 'f'
  }

  predicate IsUpperHexDigit(c: char) {
    '0' <= c <= '9' || 'A' <= c <= 'F'
  }

  function HexDigitValue(c: char): (v: nat)
    requires IsHexDigit(c)
    ensures v < 16
  {
    if '0' <= c <= '9' then (c as int) - ('0' as int)
    else if 'A' <= c <= 'F' then (c as int) - ('A' as int) + 10
    else (c as int) - ('a' as int) + 10
  }

  /** `int(s, 16)` on the two-character slices of a shade: the value of a
      string of hex digits; an empty slice or any other character raises
      ValueError. (Python's sign, `0x` prefix and surrounding whitespace do
      not occur in a shade and are not modelled.) */
  function ParseHex(s: string): (r: Result<nat>)
    ensures r.Ok? <==> s != [] && forall i :: 0 <= i < |s| ==> IsHexDigit(s[i])
    decreases |s|
  {
    if s == [] || !IsHexDigit(s[|s| - 1]) then Err("ValueError")
    else if |s| == 1 then Ok(HexDigitValue(s[0]))
    else
      match ParseHex(s[..|s| - 1])
      case Err(m) => Err(m)
      case Ok(v) => Ok(16 * v + HexDigitValue(s[|s| - 1]))
  }

  /** Python `s[a:b]` for `0 <= a <= b`: clamped to the string. */
  function Slice(s: string, a: nat, b: nat): string
    requires a <= b
  {
    if b <= |s| then s[a..b] else if a <= |s| then s[a..] else ""
  }

  /** A colour as the palette holds it: decimal components, comma-separated. */
  function RgbString(r: nat, g: nat, b: nat): string {
    NatToString(r) + ("," + (NatToString(g) + ("," + NatToString(b))))
  }

  lemma Join3(a: string, b: string, c: string)
    ensures Join(",", [a, b, c]) == a + ("," + (b + ("," + c)))
  {
    assert [a, b, c][..2] == [a, b];
    assert [a, b][..1] == [a];
    assert Join(",", [a, b]) == a + "," + b;
    assert Join(",", [a, b, c]) == Join(",", [a, b]) + "," + c;
  }

  /** One palette entry: the hex colour read two characters at a time as
      base-16 numbers, the numbers written out as decimal and joined by commas. */
  function HexToRgb(h: string): Result<string> {
    var fields := [ParseHex(Slice(h, 0, 2)), ParseHex(Slice(h, 2, 4)), ParseHex(Slice(h, 4, 6))];
    if fields[0].Err? || fields[1].Err? || fields[2].Err? then Err("ValueError")
    else Ok(Join(",", [NatToString(fields[0].value), NatToString(fields[1].value), NatToString(fields[2].value)]))
  }

  predicate IsUpperHexColor(h: string) {
    |h| == 6 && forall i :: 0 <= i < 6 ==> IsUpperHexDigit(h[i])
  }

  function UpperHexDigit(d: nat): (c: char)
    requires d < 16
    ensures IsUpperHexDigit(c) && HexDigitValue(c) == d
  {
    if d < 10 then (('0' as int) + d) as char else (('A' as int) + d - 10) as char
  }

  /** The six-digit upper-case hex spelling of a colour, as the shade list writes it. */
  function ToHex(r: nat, g: nat, b: nat): (h: string)
    requires r < 256 && g < 256 && b < 256
    ensures IsUpperHexColor(h)
  {
    [UpperHexDigit(r / 16), UpperHexDigit(r % 16), UpperHexDigit(g / 16),
     UpperHexDigit(g % 16), UpperHexDigit(b / 16), UpperHexDigit(b % 16)]
  }

  lemma UpperHexDigitRoundTrip(c: char)
    requires IsUpperHexDigit(c)
    ensures UpperHexDigit(HexDigitValue(c)) == c
  {
  }

  lemma ParsePair(hi: char, lo: char)
    requires IsHexDigit(hi) && IsHexDigit(lo)
    ensures ParseHex([hi, lo]) == Ok(16 * HexDigitValue(hi) + HexDigitValue(lo))
  {
    assert [hi, lo][..1] == [hi];
  }

  /** Converting a colour given by its components yields exactly those
      components in decimal: the conversion reads every field whole. */
  lemma {:induction false} ToHexThenRgb(r: nat, g: nat, b: nat)
    requires r < 256 && g < 256 && b < 256
    ensures HexToRgb(ToHex(r, g, b)) == Ok(RgbString(r, g, b))
  {
    var h := ToHex(r, g, b);
    assert Slice(h, 0, 2) == [h[0], h[1]];
    assert Slice(h, 2, 4) == [h[2], h[3]];
    assert Slice(h, 4, 6) == [h[4], h[5]];
    ParsePair(h[0], h[1]);
    ParsePair(h[2], h[3]);
    ParsePair(h[4], h[5]);
    DivMod16(r);
    DivMod16(g);
    DivMod16(b);
    Join3(NatToString(r), NatToString(g), NatToString(b));
  }

  lemma DivMod16(v: nat)
    requires v < 256
    ensures 16 * (v / 16) + v % 16 == v
  {
  }

  lemma SplitByte(hi: nat, lo: nat)
    requires hi < 16 && lo < 16
    ensures (16 * hi + lo) / 16 == hi && (16 * hi + lo) % 16 == lo
  {
  }

  /** Every upper-case hex colour is the spelling of its own components. */
  lemma {:induction false} UpperHexIsToHex(h: string)
    requires IsUpperHexColor(h)
    ensures h == ToHex(16 * HexDigitValue(h[0]) + HexDigitValue(h[1]),
                       16 * HexDigitValue(h[2]) + HexDigitValue(h[3]),
                       16 * HexDigitValue(h[4]) + HexDigitValue(h[5]))
  {
    var d := seq(6, i requires 0 <= i < 6 => HexDigitValue(h[i]));
    forall i | 0 <= i < 6 ensures UpperHexDigit(d[i]) == h[i] {
      UpperHexDigitRoundTrip(h[i]);
    }
    SplitByte(d[0], d[1]);
    SplitByte(d[2], d[3]);
    SplitByte(d[4], d[5]);
    var t := ToHex(16 * d[0] + d[1], 16 * d[2] + d[3], 16 * d[4] + d[5]);
    assert t == [UpperHexDigit(d[0]), UpperHexDigit(d[1]), UpperHexDigit(d[2]),
                 UpperHexDigit(d[3]), UpperHexDigit(d[4]), UpperHexDigit(d[5])];
  }

  predicate IsDigits(s: string) {
    forall i :: 0 <= i < |s| ==> '0' <= s[i] <= '9'
  }

  lemma DigitBeforeComma(x: string, y: string, i: nat)
    requires IsDigits(x) && i <= |x|
    ensures i < |x| ==> '0' <= (x + ("," + y))[i] <= '9'
    ensures i == |x| ==> (x + ("," + y))[i] == ','
  {
  }

  /** A comma after a run of digits marks where the run ends. */
  lemma {:induction false} SplitAtComma(x: string, y: string, x2: string, y2: string)
    requires IsDigits(x) && IsDigits(x2)
    requires x + ("," + y) == x2 + ("," + y2)
    ensures x == x2 && y == y2
  {
    var s := x + ("," + y);
    assert s == x2 + ("," + y2);
    assert s[|x|] == ',';
    if |x2| < |x| {
      DigitBeforeComma(x, y, |x2|);
      DigitBeforeComma(x2, y2, |x2|);
      assert false;
    }
    if |x| < |x2| {
      assert false;
    }
    assert x == s[..|x|] && x2 == s[..|x2|];
    assert y == s[|x| + 1..] && y2 == s[|x2| + 1..];
  }

  lemma NatToStringInjective(a: nat, b: nat)
    requires NatToString(a) == NatToString(b)
    ensures a == b
  {
    NatToStringRoundTrip(a);
    NatToStringRoundTrip(b);
  }

  /** Different component triples give different palette strings. */
  lemma {:induction false} RgbStringInjective(r: nat, g: nat, b: nat, r2: nat, g2: nat, b2: nat)
    requires RgbString(r, g, b) == RgbString(r2, g2, b2)
    ensures r == r2 && g == g2 && b == b2
  {
    NatToStringDigits(r);
    NatToStringDigits(r2);
    NatToStringDigits(g);
    NatToStringDigits(g2);
    var x, x2 := NatToString(r), NatToString(r2);
    var y, y2 := NatToString(g) + ("," + NatToString(b)), NatToString(g2) + ("," + NatToString(b2));
    SplitAtComma(x, y, x2, y2);
    SplitAtComma(NatToString(g), NatToString(b), NatToString(g2), NatToString(b2));
    NatToStringInjective(r, r2);
    NatToStringInjective(g, g2);
    NatToStringInjective(b, b2);
  }

  /** Distinct shades convert to distinct palette entries, so the converted
      palette has as many colours as the shade list. */
  lemma {:induction false} HexToRgbInjective(h1: string, h2: string)
    requires IsUpperHexColor(h1) && IsUpperHexColor(h2) && h1 != h2
    ensures HexToRgb(h1).Ok? && HexToRgb(h2).Ok? && HexToRgb(h1) != HexToRgb(h2)
  {
    UpperHexIsToHex(h1);
    UpperHexIsToHex(h2);
    var r1, g1, b1 := 16 * HexDigitValue(h1[0]) + HexDigitValue(h1[1]),
                      16 * HexDigitValue(h1[2]) + HexDigitValue(h1[3]),
                      16 * HexDigitValue(h1[4]) + HexDigitValue(h1[5]);
    var r2, g2, b2 := 16 * HexDigitValue(h2[0]) + HexDigitValue(h2[1]),
                      16 * HexDigitValue(h2[2]) + HexDigitValue(h2[3]),
                      16 * HexDigitValue(h2[4]) + HexDigitValue(h2[5]);
    ToHexThenRgb(r1, g1, b1);
    ToHexThenRgb(r2, g2, b2);
    if RgbString(r1, g1, b1) == RgbString(r2, g2, b2) {
      RgbStringInjective(r1, g1, b1, r2, g2, b2);
    }
  }

  /** A shade read as hex converts without error. */
  lemma UpperHexConverts(h: string)
    requires IsUpperHexColor(h)
    ensures HexToRgb(h).Ok?
  {
    UpperHexIsToHex(h);
    ToHexThenRgb(16 * HexDigitValue(h[0]) + HexDigitValue(h[1]),
                 16 * HexDigitValue(h[2]) + HexDigitValue(h[3]),
                 16 * HexDigitValue(h[4]) + HexDigitValue(h[5]));
  }

  // ---------------------------------------------------------------------
  // The shade list and the palette built from it
  // ---------------------------------------------------------------------

  lemma LevelProps(d: nat)
    requires d < 6
    ensures |Levels[d]| == 2 && IsUpperHexDigit(Levels[d][0]) && IsUpperHexDigit(Levels[d][1])
  {
  }

  lemma LevelsDistinct(d: nat, e: nat)
    requires d < 6 && e < 6 && Levels[d] == Levels[e]
    ensures d == e
  {
    assert Levels[d][0] == Levels[e][0];
  }

  lemma CubeDigits(n: nat)
    requires n < 216
    ensures n / 36 < 6 && n / 6 % 6 < 6 && n % 6 < 6
    ensures n == 36 * (n / 36) + 6 * (n / 6 % 6) + n % 6
  {
  }

  /** Every shade of the cube is a six-digit upper-case hex colour. */
  lemma CubeShadeHex(n: nat)
    requires n < 216
    ensures IsUpperHexColor(CubeShade(n))
  {
    CubeDigits(n);
    LevelProps(n / 36);
    LevelProps(n / 6 % 6);
    LevelProps(n % 6);
  }

  /** Different places in the cube hold different shades. */
  lemma {:induction false} CubeShadeInjective(m: nat, n: nat)
    requires m < 216 && n < 216 && CubeShade(m) == CubeShade(n)
    ensures m == n
  {
    CubeDigits(m);
    CubeDigits(n);
    LevelProps(m / 36);
    LevelProps(m / 6 % 6);
    LevelProps(n / 36);
    LevelProps(n / 6 % 6);
    var s := CubeShade(m);
    assert s[..2] == Levels[m / 36] && s[2..4] == Levels[m / 6 % 6] && s[4..] == Levels[m % 6];
    assert s[..2] == Levels[n / 36] && s[2..4] == Levels[n / 6 % 6] && s[4..] == Levels[n % 6];
    LevelsDistinct(m / 36, n / 36);
    LevelsDistinct(m / 6 % 6, n / 6 % 6);
    LevelsDistinct(m % 6, n % 6);
  }

  /** The shade list has 212 entries, each a six-digit upper-case hex
      colour, none twice. */
  lemma WebShadesProps()
    ensures |WebShades| == 212
    ensures forall i :: 0 <= i < |WebShades| ==> IsUpperHexColor(WebShades[i])
    ensures Distinct(WebShades)
  {
    forall i | 0 <= i < |WebShades| ensures IsUpperHexColor(WebShades[i]) {
      CubeShadeHex(i + 4);
    }
    forall i, j | 0 <= i < j < |WebShades| ensures WebShades[i] != WebShades[j] {
      if WebShades[i] == WebShades[j] {
        CubeShadeInjective(i + 4, j + 4);
      }
    }
  }

  /** The list starts with the two brightest pure blues and ends with white. */
  lemma WebShadesEnds()
    ensures WebShades[0] == "0000CC" && WebShades[1] == "0000FF"
    ensures WebShades[210] == "FFFFCC" && WebShades[211] == "FFFFFF"
  {
  }

  /** Distinct hex shades convert to distinct colours, so converting loses
      none of them. */
  lemma {:induction false} ConvertDistinct(hs: seq<string>)
    requires forall i :: 0 <= i < |hs| ==> IsUpperHexColor(hs[i])
    requires Distinct(hs)
    ensures MapResult(HexToRgb, hs).Ok? && Distinct(MapResult(HexToRgb, hs).value)
  {
    forall i | 0 <= i < |hs| ensures HexToRgb(hs[i]).Ok? {
      UpperHexConverts(hs[i]);
    }
    var cs := MapResult(HexToRgb, hs).value;
    forall i, j | 0 <= i < j < |hs| ensures cs[i] != cs[j] {
      HexToRgbInjective(hs[i], hs[j]);
    }
  }

  /** `COLORS` before its shuffle: every shade read as three hex pairs and
      written out as "r,g,b", in the same order (the conversion raises no
      ValueError, by `ColorsProps`). */
  const Colors: seq<string> := var r := MapResult(HexToRgb, WebShades); if r.Ok? then r.value else []

  /** The palette holds 212 colours, none twice, each the conversion of the
      shade at the same place. */
  lemma ColorsProps()
    ensures MapResult(HexToRgb, WebShades) == Ok(Colors)
    ensures |Colors| == 212 && Distinct(Colors)
  {
    WebShadesProps();
    ConvertDistinct(WebShades);
  }

  // ---------------------------------------------------------------------
  // Tissue of an experiment
  // ---------------------------------------------------------------------

  /** The fixed renamings of organ slims, per assembly; any other assembly
      is not in the table (KeyError). */
  function LookupTissue(assembly: string): Option<map<string, string>> {
    if assembly == "hg19" then Some(map[])
    else if assembly == "mm10" then
      Some(map["small intestine" := "intestine", "large intestine" := "intestine", "bone element" := "bone"])
    else None
  }

  /** `sorted(slims)[0]`, or "" when there are no organ slims. */
  function FirstSlim(slims: seq<string>): (r: string)
    ensures slims == [] ==> r == ""
    ensures slims != [] ==> r in slims && forall s :: s in slims ==> StrLe(r, s)
    decreases |slims|
  {
    if slims == [] then ""
    else if |slims| == 1 then
      StrLeRefl(slims[0]);
      slims[0]
    else
      var init := slims[..|slims| - 1];
      var last := slims[|slims| - 1];
      var m := FirstSlim(init);
      assert slims == init + [last];
      StrLeTotal(m, last);
      StrLeRefl(last);
      if StrLe(m, last) then m
      else
        assert forall s :: s in init ==> StrLe(last, s) by {
          forall s | s in init ensures StrLe(last, s) { StrLeTrans(last, m, s); }
        }
        last
  }

  /** The tissue of an experiment, from the first source that knows it: the
      assembly's organ-slim renaming of its first organ slim, then the
      biosample table (by term name, then by summary), then three fixed
      answers, else "". `lookupBTN` holds the biosample tables read from
      the per-assembly JSON lists. An assembly missing from a table raises
      KeyError when that table is consulted. */
  function TranslateTissue(lookupBTN: map<string, map<string, string>>, assembly: string, exp: Exp): (r: Result<string>)
    ensures r.Err? <==> LookupTissue(assembly).None?
                        || (FirstSlim(exp.organSlims) !in LookupTissue(assembly).value && assembly !in lookupBTN)
  {
    var t := FirstSlim(exp.organSlims);
    match LookupTissue(assembly)
    case None => Err("KeyError: " + assembly)
    case Some(lookup) =>
      if t in lookup then Ok(lookup[t])
      else if assembly !in lookupBTN then Err("KeyError: " + assembly)
      else
        var byName := lookupBTN[assembly];
        var ct := exp.biosampleTermName;
        if ct in byName then Ok(byName[ct])
        else
          var summary := exp.biosampleSummary;
          if summary in byName then Ok(byName[summary])
          else if summary != "" && EndsWith(summary, "erythroid progenitor cells") then Ok("blood")
          else if "ENCSR626RVD" == exp.encodeID then Ok("brain")
          else if "ENCSR820WLP" == exp.encodeID then Ok("stem cells")
          else Ok("")
  }

  /** Every tissue name comes from one of the two tables or is one of the
      three fixed answers, or is "" when nothing is known. */
  lemma TranslateTissueSources(lookupBTN: map<string, map<string, string>>, assembly: string, exp: Exp)
    requires TranslateTissue(lookupBTN, assembly, exp).Ok?
    ensures var t := TranslateTissue(lookupBTN, assembly, exp).value;
            || t == ""
            || t in LookupTissue(assembly).value.Values
            || t in lookupBTN[assembly].Values
            || t in {"blood", "brain", "stem cells"}
  {
    var t := TranslateTissue(lookupBTN, assembly, exp).value;
    var slim := FirstSlim(exp.organSlims);
    var lookup := LookupTissue(assembly).value;
    if slim in lookup {
      assert t == lookup[slim];
    } else {
      var byName := lookupBTN[assembly];
      if exp.biosampleTermName in byName {
        assert t == byName[exp.biosampleTermName];
      } else if exp.biosampleSummary in byName {
        assert t == byName[exp.biosampleSummary];
      }
    }
  }

  /** The tissue, stripped; an experiment no source knows falls back to its
      biosample term name, so it is blank only when that name is. */
  function GetTissue(lookupBTN: map<string, map<string, string>>, assembly: string, exp: Exp): (r: Result<string>)
    ensures r.Err? <==> TranslateTissue(lookupBTN, assembly, exp).Err?
    ensures r.Ok? ==> var t := Strip(TranslateTissue(lookupBTN, assembly, exp).value);
                      r.value == (if t != "" then t else exp.biosampleTermName)
    ensures r.Ok? ==> r.value == exp.biosampleTermName || (r.value != "" && Strip(r.value) == r.value)
    ensures r.Ok? && exp.biosampleTermName != "" ==> r.value != ""
  {
    match TranslateTissue(lookupBTN, assembly, exp)
    case Err(m) => Err(m)
    case Ok(found) =>
      var t := Strip(found);
      StripIdempotent(found);
      if t == "" then Ok(exp.biosampleTermName) else Ok(t)
  }

  // ---------------------------------------------------------------------
  // Colour per tissue
  // ---------------------------------------------------------------------

  /** The allocator's state: the colours not yet handed out (taken from the
      end of the list) and the colour fixed for each tissue so far. */
  datatype Palette = Palette(unused: seq<string>, byTissue: map<string, string>)

  /** No colour is free twice, no two tissues share one, and a colour handed
      out is no longer free. */
  ghost predicate PaletteValid(p: Palette) {
    && Distinct(p.unused)
    && (forall t, u :: t in p.byTissue && u in p.byTissue && t != u ==> p.byTissue[t] != p.byTissue[u])
    && (forall t :: t in p.byTissue ==> p.byTissue[t] !in p.unused)
  }

  /** One call of `ColorByTissue(t)`: a tissue seen before keeps its colour;
      a new one takes the last free colour; popping an exhausted list raises
      IndexError. */
  function ColorStep(p: Palette, t: string): (r: (Result<string>, Palette))
    ensures t in p.byTissue ==> r == (Ok(p.byTissue[t]), p)
    ensures r.0.Err? <==> t !in p.byTissue && p.unused == []
    ensures r.0.Ok? ==> t in r.1.byTissue && r.1.byTissue[t] == r.0.value
    ensures t !in p.byTissue && r.0.Ok? ==> r.0.value in p.unused && r.1.unused + [r.0.value] == p.unused
    ensures forall u :: u in p.byTissue ==> u in r.1.byTissue && r.1.byTissue[u] == p.byTissue[u]
    ensures PaletteValid(p) ==> PaletteValid(r.1)
  {
    if t in p.byTissue then (Ok(p.byTissue[t]), p)
    else if p.unused == [] then (Err("IndexError: pop from empty list"), p)
    else
      var n := |p.unused|;
      var c := p.unused[n - 1];
      assert p.unused == p.unused[..n - 1] + [c];
      (Ok(c), Palette(p.unused[..n - 1], p.byTissue[t := c]))
  }

  /** Colouring a sequence of tissues in turn; the first failure ends the run. */
  function ColorAll(p: Palette, ts: seq<string>): (r: (Result<seq<string>>, Palette))
    ensures r.0.Ok? ==> |r.0.value| == |ts|
    decreases |ts|
  {
    if ts == [] then (Ok([]), p)
    else
      var (prev, q) := ColorAll(p, ts[..|ts| - 1]);
      if prev.Err? then (prev, q)
      else
        var (c, q2) := ColorStep(q, ts[|ts| - 1]);
        if c.Err? then (Err(c.msg), q2) else (Ok(prev.value + [c.value]), q2)
  }

  /** Over any run of calls, two tissues get the same colour exactly when
      they are the same tissue, and no tissue's colour ever changes. */
  lemma {:induction false} ColorAllConsistent(p: Palette, ts: seq<string>)
    requires PaletteValid(p)
    ensures PaletteValid(ColorAll(p, ts).1)
    ensures forall u :: u in p.byTissue ==> u in ColorAll(p, ts).1.byTissue && ColorAll(p, ts).1.byTissue[u] == p.byTissue[u]
    ensures ColorAll(p, ts).0.Ok? ==>
      var (cs, q) := (ColorAll(p, ts).0.value, ColorAll(p, ts).1);
      && |cs| == |ts|
      && (forall i :: 0 <= i < |ts| ==> ts[i] in q.byTissue && q.byTissue[ts[i]] == cs[i])
      && (forall i, j :: 0 <= i < |ts| && 0 <= j < |ts| ==> (ts[i] == ts[j] <==> cs[i] == cs[j]))
    decreases |ts|
  {
    if ts != [] {
      var init := ts[..|ts| - 1];
      ColorAllConsistent(p, init);
      var (prev, q) := ColorAll(p, init);
      if prev.Ok? {
        var (c, q2) := ColorStep(q, ts[|ts| - 1]);
        if c.Ok? {
          var cs := prev.value + [c.value];
          assert ColorAll(p, ts) == (Ok(cs), q2);
          forall i | 0 <= i < |ts| ensures ts[i] in q2.byTissue && q2.byTissue[ts[i]] == cs[i] {
            if i < |ts| - 1 { assert ts[i] == init[i]; }
          }
        }
      }
    }
  }

  /** The colour state of `byAll.py`: the shuffled palette `COLORS` and the
      `TissueColors` dictionary, both updated in place by `ColorByTissue`. */
  class TissuePalette {
    var colors: seq<string>
    var tissueColors: map<string, string>

    ghost predicate Valid()
      reads this
    {
      PaletteValid(Palette(colors, tissueColors))
    }

    function State(): Palette
      reads this
    {
      Palette(colors, tissueColors)
    }

    /** `shuffled` is `COLORS` after `random.shuffle`: some reordering of
        the converted shades, so no colour in it twice. */
    constructor(shuffled: seq<string>)
      requires multiset(shuffled) == multiset(Colors)
      ensures Valid()
      ensures colors == shuffled && tissueColors == map[]
    {
      ColorsProps();
      DistinctPermutation(Colors, shuffled);
      colors := shuffled;
      tissueColors := map[];
    }

    method ColorByTissue(t: string) returns (c: Result<string>)
      requires Valid()
      modifies this
      ensures Valid()
      ensures (c, State()) == ColorStep(old(State()), t)
    {
      if t !in tissueColors {
        if colors == [] {
          return Err("IndexError: pop from empty list");
        }
        var last := colors[|colors| - 1];
        colors := colors[..|colors| - 1];
        tissueColors := tissueColors[t := last];
      }
      c := Ok(tissueColors[t]);
    }
  }
}
