/**
 * Aspect-ratio presets: the preset names the plugin understands, the ratio
 * each names, and the list (with a default selection) that it builds from
 * the caller's preset list for the cropping library.
 *
 * The library describes a ratio by two floats. Every preset the plugin uses
 * has whole-number parts, except the "original" preset, whose x part is the
 * library's marker for "use the source image's proportions"; so x is an
 * `Extent` and y a natural number.
 */
module AspectRatios {
  import opened Wrappers

  /** The x part of a ratio: a whole number of units, or the source-image marker. */
  datatype Extent = Units(n: nat) | SourceImage

  /** One entry of the library's ratio list: an optional title and the ratio x:y. */
  datatype AspectRatio = AspectRatio(title: Option<string>, x: Extent, y: nat)

  /** The title shown for the "original" entry (the upper-cased localised label). */
  const OriginalTitle: string := "ORIGINAL"

  /** The entry that keeps the source image's own proportions. */
  const Original: AspectRatio := AspectRatio(Some(OriginalTitle), SourceImage, 1)

  /** The preset names that denote a fixed ratio. */
  const FixedPresetNames: set<string> := {"square", "3x2", "4x3", "5x3", "5x4", "7x5", "16x9"}

  function Digit(d: nat): char
    requires d < 10
  {
    ('0' as int + d) as char
  }

  /** The decimal numeral of `n`, without leading zeros. */
  function DecimalString(n: nat): string
    decreases n
  {
    if n < 10 then [Digit(n)] else DecimalString(n / 10) + [Digit(n % 10)]
  }

  /** The name a fixed ratio x:y goes by: "square" for 1:1, "<x>x<y>" otherwise. */
  function PresetName(x: nat, y: nat): string {
    if x == 1 && y == 1 then "square" else DecimalString(x) + "x" + DecimalString(y)
  }

  /**
   * The ratio a preset name stands for. A fixed preset gives an untitled
   * whole-number ratio whose name is exactly `name`; "original" and every
   * name the plugin does not know give the source-image entry.
   */
  function ParseAspectRatioName(name: string): (r: AspectRatio)
    ensures r.x.SourceImage? <==> name !in FixedPresetNames
    ensures r.x.SourceImage? ==> r == Original
    ensures r.x.Units? ==> r.title == None && 0 < r.y <= r.x.n && PresetName(r.x.n, r.y) == name
  {
    if name == "square" then AspectRatio(None, Units(1), 1)
    else if name == "original" then Original
    else if name == "3x2" then AspectRatio(None, Units(3), 2)
    else if name == "4x3" then AspectRatio(None, Units(4), 3)
    else if name == "5x3" then AspectRatio(None, Units(5), 3)
    else if name == "5x4" then AspectRatio(None, Units(5), 4)
    else if name == "7x5" then AspectRatio(None, Units(7), 5)
    else if name == "16x9" then AspectRatio(None, Units(16), 9)
    else Original
  }

  lemma {:induction false} DecimalStringHasNoX(n: nat)
    ensures 0 < |DecimalString(n)| && 'x' !in DecimalString(n)
    decreases n
  {
    if n >= 10 {
      DecimalStringHasNoX(n / 10);
    }
  }

  lemma {:induction false} DecimalStringInjective(a: nat, b: nat)
    requires DecimalString(a) == DecimalString(b)
    ensures a == b
    decreases a
  {
    if a < 10 && b < 10 {
    } else if a >= 10 && b >= 10 {
      var sa, sb := DecimalString(a), DecimalString(b);
      assert sa[..|sa| - 1] == DecimalString(a / 10);
      assert sb[..|sb| - 1] == DecimalString(b / 10);
      DecimalStringInjective(a / 10, b / 10);
      assert Digit(a % 10) == sa[|sa| - 1] == Digit(b % 10);
    } else if a < 10 {
      DecimalStringHasNoX(b / 10);
    } else {
      DecimalStringHasNoX(a / 10);
    }
  }

  /** Splitting "<u>x<v>" at its only 'x' recovers u and v. */
  lemma SplitAtX(u1: string, v1: string, u2: string, v2: string)
    requires 'x' !in u1 && 'x' !in u2
    requires u1 + "x" + v1 == u2 + "x" + v2
    ensures u1 == u2 && v1 == v2
  {
    var s := u1 + "x" + v1;
    assert s[|u1|] == 'x' && s[|u2|] == 'x';
    assert u1 == s[..|u1|] == u2;
    assert v1 == s[|u1| + 1..] == v2;
  }

  /** Different ratios go by different names. */
  lemma PresetNameInjective(x1: nat, y1: nat, x2: nat, y2: nat)
    requires PresetName(x1, y1) == PresetName(x2, y2)
    ensures x1 == x2 && y1 == y2
  {
    DecimalStringHasNoX(x1);
    DecimalStringHasNoX(x2);
    assert 'x' !in "square";
    var s1 := DecimalString(x1) + "x" + DecimalString(y1);
    var s2 := DecimalString(x2) + "x" + DecimalString(y2);
    assert s1[|DecimalString(x1)|] == 'x' && s2[|DecimalString(x2)|] == 'x';
    if !(x1 == 1 && y1 == 1) && !(x2 == 1 && y2 == 1) {
      SplitAtX(DecimalString(x1), DecimalString(y1), DecimalString(x2), DecimalString(y2));
      DecimalStringInjective(x1, x2);
      DecimalStringInjective(y1, y2);
    }
  }

  /** Parsing the name of a fixed preset gives back exactly that ratio, untitled. */
  lemma ParsePresetName(x: nat, y: nat)
    requires PresetName(x, y) in FixedPresetNames
    ensures ParseAspectRatioName(PresetName(x, y)) == AspectRatio(None, Units(x), y)
  {
    var r := ParseAspectRatioName(PresetName(x, y));
    PresetNameInjective(r.x.n, r.y, x, y);
  }

  /** A preset entry of the caller's list matches the requested initial ratio. */
  predicate IsMatch(preset: Option<string>, initAspectRatio: Option<string>) {
    preset.Some? && preset == initAspectRatio
  }

  /** The number of non-null presets. */
  function CountPresent(presets: seq<Option<string>>): nat {
    if presets == [] then 0
    else CountPresent(presets[..|presets| - 1]) + (if presets[|presets| - 1].Some? then 1 else 0)
  }

  /** The library entries for the presets: one per non-null preset, in order. */
  function PresetRatios(presets: seq<Option<string>>): seq<AspectRatio> {
    if presets == [] then []
    else
      var last := presets[|presets| - 1];
      PresetRatios(presets[..|presets| - 1]) + (if last.Some? then [ParseAspectRatioName(last.value)] else [])
  }

  /**
   * The default selection as the plugin computes it: the position, in the
   * caller's list with its nulls, of the last preset equal to the initial
   * ratio, or 0 when none is.
   */
  function DefaultIndex(presets: seq<Option<string>>, initAspectRatio: Option<string>): nat {
    if presets == [] then 0
    else if IsMatch(presets[|presets| - 1], initAspectRatio) then |presets| - 1
    else DefaultIndex(presets[..|presets| - 1], initAspectRatio)
  }

  /** The preset loop: builds the library's ratio list and the default selection. */
  method BuildAspectRatioOptions(presets: seq<Option<string>>, initAspectRatio: Option<string>)
    returns (ratios: seq<AspectRatio>, defaultIndex: nat)
    ensures ratios == PresetRatios(presets)
    ensures defaultIndex == DefaultIndex(presets, initAspectRatio)
  {
    ratios := [];
    defaultIndex := 0;
    var i := 0;
    while i < |presets|
      invariant 0 <= i <= |presets|
      invariant ratios == PresetRatios(presets[..i])
      invariant defaultIndex == DefaultIndex(presets[..i], initAspectRatio)
    {
      var preset := presets[i];
      if preset.Some? {
        ratios := ratios + [ParseAspectRatioName(preset.value)];
        if preset == initAspectRatio {
          defaultIndex := i;
        }
      }
      assert presets[..i + 1][..i] == presets[..i];
      i := i + 1;
    }
    assert presets[..i] == presets;
  }

  /** The list has one entry per non-null preset. */
  lemma {:induction false} PresetRatiosLength(presets: seq<Option<string>>)
    ensures |PresetRatios(presets)| == CountPresent(presets)
  {
    if presets != [] {
      PresetRatiosLength(presets[..|presets| - 1]);
    }
  }

  /**
   * The non-null preset at position i becomes the entry at the position
   * given by the number of non-null presets before it: input order is kept.
   */
  lemma {:induction false} PresetRatiosAt(presets: seq<Option<string>>, i: nat)
    requires i < |presets| && presets[i].Some?
    ensures CountPresent(presets[..i]) < |PresetRatios(presets)|
    ensures PresetRatios(presets)[CountPresent(presets[..i])] == ParseAspectRatioName(presets[i].value)
  {
    var front := presets[..|presets| - 1];
    if i == |presets| - 1 {
      assert presets[..i] == front;
      PresetRatiosLength(front);
    } else {
      assert presets[..i] == front[..i];
      PresetRatiosAt(front, i);
    }
  }

  /** Every preset equal to the initial ratio lies at or before the default index, which is itself such a preset. */
  lemma {:induction false} DefaultIndexIsLastMatch(presets: seq<Option<string>>, initAspectRatio: Option<string>, k: nat)
    requires k < |presets| && IsMatch(presets[k], initAspectRatio)
    ensures k <= DefaultIndex(presets, initAspectRatio) < |presets|
    ensures IsMatch(presets[DefaultIndex(presets, initAspectRatio)], initAspectRatio)
  {
    var front := presets[..|presets| - 1];
    if !IsMatch(presets[|presets| - 1], initAspectRatio) {
      assert front[k] == presets[k];
      DefaultIndexIsLastMatch(front, initAspectRatio, k);
    }
  }

  /** With no preset equal to the initial ratio, the default is the first entry. */
  lemma {:induction false} DefaultIndexWithoutMatch(presets: seq<Option<string>>, initAspectRatio: Option<string>)
    requires forall i :: 0 <= i < |presets| ==> !IsMatch(presets[i], initAspectRatio)
    ensures DefaultIndex(presets, initAspectRatio) == 0
  {
    if presets != [] {
      var front := presets[..|presets| - 1];
      assert forall i :: 0 <= i < |front| ==> front[i] == presets[i];
      DefaultIndexWithoutMatch(front, initAspectRatio);
    }
  }

  lemma {:induction false} CountPresentAllSome(presets: seq<Option<string>>)
    requires forall i :: 0 <= i < |presets| ==> presets[i].Some?
    ensures CountPresent(presets) == |presets|
  {
    if presets != [] {
      var front := presets[..|presets| - 1];
      assert forall i :: 0 <= i < |front| ==> front[i] == presets[i];
      CountPresentAllSome(front);
    }
  }

  /** When the caller's list has no nulls, the default index selects the matching entry. */
  lemma DefaultIndexWithoutNulls(presets: seq<Option<string>>, initAspectRatio: Option<string>, k: nat)
    requires forall i :: 0 <= i < |presets| ==> presets[i].Some?
    requires k < |presets| && IsMatch(presets[k], initAspectRatio)
    ensures DefaultIndex(presets, initAspectRatio) < |PresetRatios(presets)|
    ensures PresetRatios(presets)[DefaultIndex(presets, initAspectRatio)] == ParseAspectRatioName(initAspectRatio.value)
  {
    var d := DefaultIndex(presets, initAspectRatio);
    DefaultIndexIsLastMatch(presets, initAspectRatio, k);
    CountPresentAllSome(presets[..d]);
    PresetRatiosAt(presets, d);
  }

  /**
   * With a null before the match, the default index counts the null and can
   * lie past the end of the list it is meant to select from.
   */
  lemma DefaultIndexCanPassList()
    ensures var presets := [None, Some("square")];
      DefaultIndex(presets, Some("square")) == 1 && |PresetRatios(presets)| == 1
  {
    var presets: seq<Option<string>> := [None, Some("square")];
    assert presets[..1] == [None];
    assert presets[..1][..0] == [];
  }
}
