/**
 * The editor's pure helpers for animation names
 * (src/editor/utils/animation-helpers.ts): splitting a preset name into a
 * style and a variant, the directions an entrance style offers, the label
 * shown for a variant and rebuilding a preset name from a style and a
 * variant.
 */
module AnimationHelpers {
  import opened Common
  import opened Text
  import opened SharedTypes

  /** A name split into its style (the text before the first dash) and its variant. */
  datatype Parsed = Parsed(style: string, variant: string)

  /**
   * `parseAnimation`: `None` is `{ style: null, variant: null }` for "none"
   * and the empty name. A name holding "-in-" drops its second field; any
   * other name keeps everything after the first dash.
   */
  function ParseAnimation(animation: string): (p: Option<Parsed>)
    ensures p.None? <==> animation == "none" || animation == ""
    ensures p.Some? ==> '-' !in p.value.style && StartsWith(animation, p.value.style)
    ensures p.Some? && |p.value.style| < |animation| ==> animation[|p.value.style|] == '-'
    ensures p.Some? && '-' !in animation ==> p.value == Parsed(animation, "default")
  {
    if animation == "none" || animation == "" then None
    else
      var parts := Split(animation, '-');
      if Includes(animation, "-in-") then
        Some(Parsed(parts[0], if |parts| > 2 then Join(parts[2..], '-') else "default"))
      else
        Some(Parsed(parts[0], if |parts| > 1 then Join(parts[1..], '-') else "default"))
  }

  /** A style without dashes, "-in-" and a direction parse back into that style and direction. */
  lemma {:induction false} ParseInfixed(style: string, direction: string)
    requires '-' !in style && style != ""
    ensures ParseAnimation(style + "-in-" + direction) == Some(Parsed(style, direction))
  {
    var name := style + "-in-" + direction;
    IncludesAfterPrefix(name, style, "-in-");
    SplitInfixed(style, direction);
    var parts := Split(name, '-');
    assert parts[2..] == Split(direction, '-');
    JoinSplit(direction, '-');
  }

  /** A name with a dash but no "-in-" keeps everything after its first dash as the variant. */
  lemma {:induction false} ParseOther(style: string, rest: string)
    requires '-' !in style && style != ""
    requires !Includes(style + "-" + rest, "-in-")
    ensures ParseAnimation(style + "-" + rest) == Some(Parsed(style, rest))
  {
    var name := style + "-" + rest;
    assert name == style + ['-'] + rest;
    SplitAfterField(style, '-', rest);
    JoinSplit(rest, '-');
    assert Split(name, '-')[1..] == Split(rest, '-');
  }

  /** The fields of "style-in-direction" are the style, "in" and the fields of the direction. */
  lemma {:induction false} SplitInfixed(style: string, direction: string)
    requires '-' !in style
    ensures Split(style + "-in-" + direction, '-') == [style, "in"] + Split(direction, '-')
  {
    assert style + "-in-" + direction == style + ['-'] + ("in" + ['-'] + direction);
    SplitAfterField(style, '-', "in" + ['-'] + direction);
    SplitAfterField("in", '-', direction);
  }

  /** A directionless entrance name such as "fade-in" parses into its style and the variant "in". */
  lemma {:induction false} ParseSuffixIn(style: string)
    requires '-' !in style && style != ""
    ensures ParseAnimation(style + "-in") == Some(Parsed(style, "in"))
  {
    var name := style + "-in";
    forall j: nat ensures !OccursAt(name, "-in-", j) {
      if j < |style| && j + 4 <= |name| {
        assert name[j..j + 4][0] == name[j] == style[j];
      }
    }
    assert name == style + ['-'] + "in";
    SplitAfterField(style, '-', "in");
    assert Split(name, '-') == [style, "in"];
  }

  /** Directions of `style` among `presets`, in order: the text after "-in-" of each name starting with `style-in-`. */
  function DirectionsIn(presets: seq<string>, style: string): (dirs: seq<string>)
    ensures |dirs| <= |presets|
    ensures forall d :: d in dirs ==>
      exists p :: p in presets && StartsWith(p, style + "-in-") && SecondField(p, "-in-") == Some(d)
    ensures forall p :: p in presets && StartsWith(p, style + "-in-") ==>
      SecondField(p, "-in-").Some? && SecondField(p, "-in-").value in dirs
  {
    if |presets| == 0 then []
    else
      var rest := DirectionsIn(presets[1..], style);
      var p := presets[0];
      if StartsWith(p, style + "-in-") then
        IncludesAfterPrefix(p, style, "-in-");
        [SecondField(p, "-in-").value] + rest
      else rest
  }

  /** The first direction comes from the first preset that starts with `style-in-`. */
  lemma {:induction false} FirstDirectionIsFirstMatch(presets: seq<string>, style: string)
    requires |DirectionsIn(presets, style)| > 0
    ensures exists i ::
      && 0 <= i < |presets|
      && StartsWith(presets[i], style + "-in-")
      && SecondField(presets[i], "-in-") == Some(DirectionsIn(presets, style)[0])
      && (forall j :: 0 <= j < i ==> !StartsWith(presets[j], style + "-in-"))
  {
    if StartsWith(presets[0], style + "-in-") {
      IncludesAfterPrefix(presets[0], style, "-in-");
      assert DirectionsIn(presets, style)[0] == SecondField(presets[0], "-in-").value;
    } else {
      assert DirectionsIn(presets, style) == DirectionsIn(presets[1..], style);
      FirstDirectionIsFirstMatch(presets[1..], style);
      var i :|
        && 0 <= i < |presets[1..]|
        && StartsWith(presets[1..][i], style + "-in-")
        && SecondField(presets[1..][i], "-in-") == Some(DirectionsIn(presets[1..], style)[0])
        && (forall j :: 0 <= j < i ==> !StartsWith(presets[1..][j], style + "-in-"));
      assert forall j :: 0 <= j < i + 1 ==> !StartsWith(presets[j], style + "-in-") by {
        forall j | 0 <= j < i + 1 ensures !StartsWith(presets[j], style + "-in-") {
          if j > 0 {
            assert presets[j] == presets[1..][j - 1];
          }
        }
      }
      assert presets[i + 1] == presets[1..][i];
    }
  }

  /** Directions keep the order of the presets: the directions of a concatenation are the concatenated directions. */
  lemma {:induction false} DirectionsInAppend(a: seq<string>, b: seq<string>, style: string)
    ensures DirectionsIn(a + b, style) == DirectionsIn(a, style) + DirectionsIn(b, style)
  {
    if |a| > 0 {
      assert (a + b)[0] == a[0];
      assert (a + b)[1..] == a[1..] + b;
      DirectionsInAppend(a[1..], b, style);
    } else {
      assert a + b == b;
    }
  }

  /** `getEntranceDirections`. */
  function GetEntranceDirections(style: string): seq<string>
  {
    DirectionsIn(EntrancePresets, style)
  }

  /** `buildEntranceAnimation`: the variant when the style offers it, else the style's first direction, else the plain `style-in`. */
  function BuildEntranceAnimation(style: string, variant: string): (name: string)
    ensures StartsWith(name, style + "-in")
    ensures variant in GetEntranceDirections(style) && variant != "" ==> name == style + "-in-" + variant
    ensures variant !in GetEntranceDirections(style) && |GetEntranceDirections(style)| > 0 && GetEntranceDirections(style)[0] != "" ==>
      name == style + "-in-" + GetEntranceDirections(style)[0]
    ensures GetEntranceDirections(style) == [] ==> name == style + "-in"
  {
    var directions := GetEntranceDirections(style);
    var direction := if variant in directions then variant else if |directions| > 0 then directions[0] else "";
    assert (style + "-in-" + direction)[..|style + "-in"|] == style + "-in";
    if direction != "" then style + "-in-" + direction else style + "-in"
  }

  /** An entrance name parses into a style and a direction the style offers, and building from those gives the name back. */
  lemma {:induction false} EntranceRoundTrip(style: string, direction: string)
    requires '-' !in style && style != ""
    requires direction in GetEntranceDirections(style) && direction != ""
    ensures var p := ParseAnimation(style + "-in-" + direction);
      p.Some? && BuildEntranceAnimation(p.value.style, p.value.variant) == style + "-in-" + direction
  {
    ParseInfixed(style, direction);
  }

  /** A directionless name such as "fade-in" is rebuilt with the style's first direction, since "in" is not a direction. */
  lemma {:induction false} DirectionlessGetsFirstDirection(style: string)
    requires '-' !in style && style != ""
    requires |GetEntranceDirections(style)| > 0 && GetEntranceDirections(style)[0] != ""
    requires "in" !in GetEntranceDirections(style)
    ensures var p := ParseAnimation(style + "-in");
      p.Some? && BuildEntranceAnimation(p.value.style, p.value.variant) == style + "-in-" + GetEntranceDirections(style)[0]
  {
    ParseSuffixIn(style);
  }

  /** `VARIANT_LABELS` of the editor configuration. */
  const VariantLabels: map<string, string> := map["in" := "In", "x" := "Horizontal", "y" := "Vertical", "default" := "Default"]

  /** `word.charAt(0).toUpperCase() + word.slice(1)`. */
  function Capitalize(word: string): string
  {
    if |word| == 0 then "" else [UpperChar(word[0])] + word[1..]
  }

  /** Every word capitalized. */
  function CapitalizeAll(words: seq<string>): (caps: seq<string>)
    ensures |caps| == |words|
    ensures forall i :: 0 <= i < |words| ==> caps[i] == Capitalize(words[i])
  {
    if |words| == 0 then [] else [Capitalize(words[0])] + CapitalizeAll(words[1..])
  }

  /** The words of `key` capitalized and joined by spaces. */
  function TitleCase(key: string): string
  {
    Join(CapitalizeAll(Split(key, '-')), ' ')
  }

  /** The character of a title-cased `key` at position `i`: dashes become spaces and the first letter of each word is upper-cased. */
  function LabelChar(key: string, i: nat): char
    requires i < |key|
  {
    if key[i] == '-' then ' '
    else if i == 0 || key[i - 1] == '-' then UpperChar(key[i])
    else key[i]
  }

  /** `formatVariantLabel`: the configured label when there is one, otherwise the title-cased key. */
  function FormatVariantLabel(key: string): (shown: string)
    ensures key in VariantLabels ==> shown == VariantLabels[key]
    ensures key !in VariantLabels ==> |shown| == |key| && forall i :: 0 <= i < |key| ==> shown[i] == LabelChar(key, i)
  {
    if key in VariantLabels then VariantLabels[key]
    else
      TitleCaseByCharacter(key);
      CharWiseAt(key, true);
      TitleCase(key)
  }

  /** Title-casing `s`, a word's tail when `atStart` is false, one character at a time. */
  function CharWise(s: string, atStart: bool): (r: string)
    ensures |r| == |s|
  {
    if |s| == 0 then ""
    else [if s[0] == '-' then ' ' else if atStart then UpperChar(s[0]) else s[0]] + CharWise(s[1..], s[0] == '-')
  }

  /** Whether position `i` of `s` begins a word. */
  predicate StartsWord(s: string, i: nat, atStart: bool)
    requires i < |s|
  {
    if i == 0 then atStart else s[i - 1] == '-'
  }

  /** Each character of `CharWise`: a dash becomes a space, a word's first character is upper-cased, the rest are kept. */
  lemma {:induction false} CharWiseAt(s: string, atStart: bool)
    ensures forall i: nat :: i < |s| ==>
      CharWise(s, atStart)[i] == if s[i] == '-' then ' ' else if StartsWord(s, i, atStart) then UpperChar(s[i]) else s[i]
  {
    if |s| > 0 {
      CharWiseAt(s[1..], s[0] == '-');
      forall i: nat | 1 <= i < |s|
        ensures CharWise(s, atStart)[i] == if s[i] == '-' then ' ' else if StartsWord(s, i, atStart) then UpperChar(s[i]) else s[i]
      {
        assert CharWise(s, atStart)[i] == CharWise(s[1..], s[0] == '-')[i - 1];
        assert s[1..][i - 1] == s[i];
        assert StartsWord(s[1..], i - 1, s[0] == '-') == StartsWord(s, i, atStart);
      }
    }
  }

  /** The words joined by spaces, each capitalized except the first when `atStart` is false. */
  function Retitled(words: seq<string>, atStart: bool): string
    requires |words| >= 1
  {
    Join([if atStart then Capitalize(words[0]) else words[0]] + CapitalizeAll(words[1..]), ' ')
  }

  /** Joining after prepending characters to the first word prepends them to the result. */
  lemma {:induction false} JoinPrepend(x: string, y: string, tail: seq<string>, sep: char)
    ensures Join([x + y] + tail, sep) == x + Join([y] + tail, sep)
  {
    if |tail| > 0 {
      assert ([x + y] + tail)[1..] == tail == ([y] + tail)[1..];
    }
  }

  /** Splitting into words, capitalizing them and joining with spaces is the character-wise title case. */
  lemma {:induction false} RetitledIsCharWise(s: string, atStart: bool)
    ensures Retitled(Split(s, '-'), atStart) == CharWise(s, atStart)
    decreases |s|
  {
    if |s| > 0 {
      if s[0] == '-' {
        RetitledIsCharWise(s[1..], true);
        RetitledAfterDash(s, atStart);
      } else {
        RetitledIsCharWise(s[1..], false);
        RetitledAfterLetter(s, atStart);
      }
    }
  }

  /** A leading dash starts a fresh word after a space. */
  lemma {:induction false} RetitledAfterDash(s: string, atStart: bool)
    requires |s| > 0 && s[0] == '-'
    ensures Retitled(Split(s, '-'), atStart) == " " + Retitled(Split(s[1..], '-'), true)
  {
    var rest := Split(s[1..], '-');
    var words := [""] + rest;
    assert Split(s, '-') == words && words[1..] == rest;
    var caps := CapitalizeAll(rest);
    assert ([""] + caps)[1..] == caps;
    assert caps == [Capitalize(rest[0])] + CapitalizeAll(rest[1..]);
  }

  /** A leading letter is kept, upper-cased only at the start of a word, in front of the rest of its word. */
  lemma {:induction false} RetitledAfterLetter(s: string, atStart: bool)
    requires |s| > 0 && s[0] != '-'
    ensures Retitled(Split(s, '-'), atStart) == [if atStart then UpperChar(s[0]) else s[0]] + Retitled(Split(s[1..], '-'), false)
  {
    var rest := Split(s[1..], '-');
    var words := [[s[0]] + rest[0]] + rest[1..];
    assert Split(s, '-') == words && words[1..] == rest[1..];
    var c := if atStart then UpperChar(s[0]) else s[0];
    assert ([s[0]] + rest[0])[1..] == rest[0];
    assert (if atStart then Capitalize(words[0]) else words[0]) == [c] + rest[0];
    JoinPrepend([c], rest[0], CapitalizeAll(rest[1..]), ' ');
  }

  /** `TitleCase` is `CharWise` from the start of a word. */
  lemma {:induction false} TitleCaseByCharacter(key: string)
    ensures TitleCase(key) == CharWise(key, true)
  {
    var words := Split(key, '-');
    RetitledIsCharWise(key, true);
    assert CapitalizeAll(words) == [Capitalize(words[0])] + CapitalizeAll(words[1..]);
  }

  /** The position of the first name in `presets` that starts with `style`. */
  function FirstIndexWithStyle(presets: seq<string>, style: string): (k: Option<nat>)
    ensures k.Some? ==> k.value < |presets| && StartsWith(presets[k.value], style)
    ensures k.Some? ==> forall j :: 0 <= j < k.value ==> !StartsWith(presets[j], style)
    ensures k.None? ==> forall j :: 0 <= j < |presets| ==> !StartsWith(presets[j], style)
  {
    if |presets| == 0 then None
    else if StartsWith(presets[0], style) then Some(0)
    else
      var rest := FirstIndexWithStyle(presets[1..], style);
      if rest.Some? then Some(rest.value + 1) else None
  }

  /** `presets.find(p => p.startsWith(style))`. */
  function FirstWithStyle(presets: seq<string>, style: string): Option<string>
  {
    var k := FirstIndexWithStyle(presets, style);
    if k.Some? then Some(presets[k.value]) else None
  }

  /** The name `buildScrollAnimation` assembles before checking it against the presets. */
  function ScrollNameFor(style: string, variant: string): string
  {
    if variant == "default" then style + "-in"
    else if Includes(variant, "enter-leave") then style + "-" + variant
    else style + "-in-" + variant
  }

  /** `buildScrollAnimation`: always a scroll preset; the assembled name when it is one, else the style's first preset, else "fade-in-up". */
  function BuildScrollAnimation(style: string, variant: string): (name: string)
    ensures name in ScrollPresets
    ensures ScrollNameFor(style, variant) in ScrollPresets ==> name == ScrollNameFor(style, variant)
    ensures ScrollNameFor(style, variant) !in ScrollPresets ==> name == GetOr(FirstWithStyle(ScrollPresets, style), "fade-in-up")
    ensures ScrollNameFor(style, variant) !in ScrollPresets && FirstWithStyle(ScrollPresets, style).Some? ==> StartsWith(name, style)
  {
    var candidate := ScrollNameFor(style, variant);
    if candidate in ScrollPresets then candidate
    else GetOr(FirstWithStyle(ScrollPresets, style), "fade-in-up")
  }

  /** The first name starting with the style is recognised by its position alone. */
  lemma {:induction false} FirstIndexAt(presets: seq<string>, style: string, k: nat)
    requires k < |presets| && StartsWith(presets[k], style)
    requires forall j :: 0 <= j < k ==> !StartsWith(presets[j], style)
    ensures FirstIndexWithStyle(presets, style) == Some(k)
  {
  }

  /** A name whose first character differs from the style's does not start with it. */
  lemma {:induction false} DiffersAtFirst(name: string, style: string)
    requires |style| > 0 && |name| > 0 && name[0] != style[0]
    ensures !StartsWith(name, style)
  {
  }

  /** A scroll preset of the form `style-in-direction` parses and rebuilds to itself. */
  lemma {:induction false} ScrollRoundTripInfixed(style: string, direction: string)
    requires '-' !in style && style != ""
    requires direction != "default" && |direction| < |"enter-leave"|
    requires style + "-in-" + direction in ScrollPresets
    ensures var p := ParseAnimation(style + "-in-" + direction);
      p.Some? && BuildScrollAnimation(p.value.style, p.value.variant) == style + "-in-" + direction
  {
    ParseInfixed(style, direction);
    ShorterNotIncluded(direction, "enter-leave");
  }

  /** A directionless scroll preset `style-in` parses to the variant "in" and is found again as its style's first preset. */
  lemma {:induction false} ScrollRoundTripPlain(style: string, k: nat)
    requires '-' !in style && style != ""
    requires k < |ScrollPresets| && ScrollPresets[k] == style + "-in"
    requires forall j :: 0 <= j < k ==> !StartsWith(ScrollPresets[j], style)
    requires style + "-in-in" !in ScrollPresets
    ensures var p := ParseAnimation(style + "-in");
      p.Some? && BuildScrollAnimation(p.value.style, p.value.variant) == style + "-in"
  {
    ParseSuffixIn(style);
    ShorterNotIncluded("in", "enter-leave");
    assert ScrollNameFor(style, "in") == style + "-in-in";
    assert StartsWith(ScrollPresets[k], style) by {
      assert (style + "-in")[..|style|] == style;
    }
    FirstIndexAt(ScrollPresets, style, k);
  }

  /** The four scroll presets that carry a direction survive `parseAnimation` followed by `buildScrollAnimation`. */
  lemma {:induction false} ScrollInfixedRoundTrip(style: string, direction: string, name: string)
    requires (style, direction, name) in [("fade", "up", "fade-in-up"), ("fade", "down", "fade-in-down"),
                                          ("slide", "left", "slide-in-left"), ("slide", "right", "slide-in-right")]
    ensures var p := ParseAnimation(name);
      p.Some? && BuildScrollAnimation(p.value.style, p.value.variant) == name
  {
    assert name == style + "-in-" + direction;
    ScrollRoundTripInfixed(style, direction);
  }

  /** The two directionless scroll presets, "scale-in" at position 2 and "rotate-in" at position 5, survive the same round trip through the fallback. */
  lemma {:induction false} ScrollPlainRoundTrip(style: string, k: nat)
    requires (style, k) == ("scale", 2) || (style, k) == ("rotate", 5)
    ensures var p := ParseAnimation(style + "-in");
      p.Some? && BuildScrollAnimation(p.value.style, p.value.variant) == style + "-in"
  {
    var P := ScrollPresets;
    assert P[k] == style + "-in";
    forall j | 0 <= j < k ensures !StartsWith(P[j], style) {
      DiffersAtFirst(P[j], style);
    }
    assert (style + "-in-in")[0] == style[0] && |style + "-in-in"| == |style| + 6;
    ScrollRoundTripPlain(style, k);
  }
}
