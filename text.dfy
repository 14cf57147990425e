/**
 * The JavaScript string operations the editor helpers use: `split` and
 * `join` on one separator character, `indexOf`/`includes` of a substring,
 * `startsWith`, `s.split(sep)[1]` and ASCII upper-casing of one character.
 */
module Text {
  import opened Common

  /** `s.split(sep)` for a one-character separator: empty fields are kept, so there is always one field more than separators. */
  function Split(s: string, sep: char): (parts: seq<string>)
    ensures |parts| >= 1
    ensures forall i :: 0 <= i < |parts| ==> sep !in parts[i]
    ensures sep !in s ==> parts == [s]
    ensures StartsWith(s, parts[0]) && (|parts[0]| < |s| ==> s[|parts[0]|] == sep)
  {
    if |s| == 0 then [""]
    else
      var rest := Split(s[1..], sep);
      if s[0] == sep then [""] + rest
      else
        assert sep !in s ==> rest == [s[1..]] && s == [s[0]] + s[1..];
        assert s[..|rest[0]| + 1] == [s[0]] + s[1..][..|rest[0]|];
        var parts := [[s[0]] + rest[0]] + rest[1..];
        assert forall i :: 1 <= i < |parts| ==> parts[i] == rest[i];
        parts
  }

  /** `parts.join(sep)`. */
  function Join(parts: seq<string>, sep: char): string
  {
    if |parts| == 0 then ""
    else if |parts| == 1 then parts[0]
    else parts[0] + [sep] + Join(parts[1..], sep)
  }

  /** Joining the fields of a split with the same separator gives the string back. */
  lemma {:induction false} JoinSplit(s: string, sep: char)
    ensures Join(Split(s, sep), sep) == s
  {
    if |s| > 0 {
      var rest := Split(s[1..], sep);
      JoinSplit(s[1..], sep);
      if s[0] == sep {
        assert Split(s, sep) == [""] + rest;
        assert ([""] + rest)[1..] == rest;
      } else {
        var parts := [[s[0]] + rest[0]] + rest[1..];
        assert Split(s, sep) == parts;
        if |rest| > 1 {
          assert parts[1..] == rest[1..];
          assert Join(rest, sep) == rest[0] + [sep] + Join(rest[1..], sep);
        }
      }
    }
  }

  /** A field without the separator, the separator, then anything: the field comes first and the rest splits on its own. */
  lemma {:induction false} SplitAfterField(a: string, sep: char, b: string)
    requires sep !in a
    ensures Split(a + [sep] + b, sep) == [a] + Split(b, sep)
  {
    if |a| == 0 {
      assert a + [sep] + b == [sep] + b;
      assert ([sep] + b)[1..] == b;
    } else {
      assert (a + [sep] + b)[1..] == a[1..] + [sep] + b;
      SplitAfterField(a[1..], sep, b);
      assert [a[0]] + a[1..] == a;
    }
  }

  /** `s.startsWith(prefix)`. */
  predicate StartsWith(s: string, prefix: string)
  {
    |prefix| <= |s| && s[..|prefix|] == prefix
  }

  /** `t` occurs in `s` starting at position `j`. */
  predicate OccursAt(s: string, t: string, j: nat)
  {
    j + |t| <= |s| && s[j..j + |t|] == t
  }

  /** The first position at or after `k` where the non-empty `t` occurs. */
  function IndexFrom(s: string, t: string, k: nat): (r: Option<nat>)
    requires |t| > 0 && k <= |s|
    ensures r.Some? ==> k <= r.value && OccursAt(s, t, r.value)
    ensures r.Some? ==> forall j: nat :: k <= j < r.value ==> !OccursAt(s, t, j)
    ensures r.None? ==> forall j: nat :: k <= j ==> !OccursAt(s, t, j)
    decreases |s| - k
  {
    if k + |t| > |s| then None
    else if OccursAt(s, t, k) then Some(k)
    else IndexFrom(s, t, k + 1)
  }

  /** A string that starts with `a + t` contains `t`. */
  lemma {:induction false} IncludesAfterPrefix(s: string, a: string, t: string)
    requires |t| > 0 && StartsWith(s, a + t)
    ensures OccursAt(s, t, |a|) && Includes(s, t)
  {
    assert s[|a|..|a| + |t|] == s[..|a + t|][|a|..] == (a + t)[|a|..] == t;
    assert OccursAt(s, t, |a|);
    var k := IndexOf(s, t);
  }

  /** `s.indexOf(t)` for a non-empty `t`: the first position where `t` occurs, `None` for -1. */
  function IndexOf(s: string, t: string): (r: Option<nat>)
    requires |t| > 0
    ensures r.Some? ==> OccursAt(s, t, r.value)
    ensures r.Some? ==> forall j: nat :: j < r.value ==> !OccursAt(s, t, j)
    ensures r.None? ==> forall j: nat :: !OccursAt(s, t, j)
  {
    IndexFrom(s, t, 0)
  }

  /** `s.includes(t)`. */
  predicate Includes(s: string, t: string)
    requires |t| > 0
  {
    IndexOf(s, t).Some?
  }

  /** A string shorter than `t` does not contain it. */
  lemma {:induction false} ShorterNotIncluded(s: string, t: string)
    requires 0 < |t| && |s| < |t|
    ensures !Includes(s, t)
  {
    var k := IndexOf(s, t);
  }

  /** `s.split(sep)[1]`: the text between the first and the second `sep`, `undefined` when `sep` does not occur. */
  function SecondField(s: string, sep: string): (f: Option<string>)
    requires |sep| > 0
    ensures f.None? <==> !Includes(s, sep)
  {
    match IndexOf(s, sep)
    case None => None
    case Some(i) =>
      var rest := s[i + |sep|..];
      match IndexOf(rest, sep)
      case None => Some(rest)
      case Some(j) => Some(rest[..j])
  }

  /** A string that starts with `style + sep`, where `style` cannot hold `sep`'s first character, has its first `sep` right after `style`. */
  lemma {:induction false} FirstOccurrenceAfterPrefix(s: string, style: string, sep: string)
    requires |sep| > 0 && sep[0] !in style
    requires StartsWith(s, style + sep)
    ensures IndexOf(s, sep) == Some(|style|)
  {
    assert s[|style|..|style| + |sep|] == (style + sep)[|style|..];
    assert OccursAt(s, sep, |style|);
    forall j: nat | j < |style| ensures !OccursAt(s, sep, j) {
      assert s[j] == style[j];
    }
  }

  /** After a prefix `style + sep`, a remainder without `sep` is exactly the second field. */
  lemma {:induction false} SecondFieldAfterPrefix(style: string, sep: string, rest: string)
    requires |sep| > 0 && sep[0] !in style
    requires !Includes(rest, sep)
    ensures SecondField(style + sep + rest, sep) == Some(rest)
  {
    var s := style + sep + rest;
    assert s[..|style + sep|] == style + sep;
    FirstOccurrenceAfterPrefix(s, style, sep);
    assert s[|style| + |sep|..] == rest;
  }

  /** `c.toUpperCase()` on ASCII letters; every other character is left as it is. */
  function UpperChar(c: char): (u: char)
    ensures 'a' <= c <= 'z' ==> 'A' <= u <= 'Z' && u as int - 'A' as int == c as int - 'a' as int
    ensures !('a' <= c <= 'z') ==> u == c
  {
    if 'a' <= c <= 'z' then (c as int - 32) as char else c
  }
}
