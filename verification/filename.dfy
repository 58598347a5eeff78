/**
 * The partition file name derived from a classification property value
 * (`toFileName`): lower-case the value, replace every space by an
 * underscore, and append the archive extension. Lower-casing is modelled
 * over ASCII letters only.
 */
module FileName {

  /** The extension every partition archive carries. */
  const Extension: string := ".mbtiles"

  predicate IsUpper(c: char) {
    'A' <= c <= 'Z'
  }

  /** ASCII lower-casing of one character. */
  function LowerChar(c: char): (d: char)
    ensures !IsUpper(d)
    ensures IsUpper(c) ==> d as int == c as int + 32
    ensures !IsUpper(c) ==> d == c
  {
    if IsUpper(c) then (c as int + 32) as char else c
  }

  /** What one character of the value becomes in the file name stem. */
  function StemChar(c: char): (d: char)
    ensures d != ' ' && !IsUpper(d)
    ensures c == ' ' ==> d == '_'
    ensures IsUpper(c) ==> d as int == c as int + 32
    ensures c != ' ' && !IsUpper(c) ==> d == c
  {
    if c == ' ' then '_' else LowerChar(c)
  }

  /** `String.prototype.toLowerCase`, ASCII letters only. */
  function ToLower(s: string): (r: string)
    ensures |r| == |s|
    ensures forall i :: 0 <= i < |s| ==> r[i] == LowerChar(s[i])
  {
    if s == [] then [] else [LowerChar(s[0])] + ToLower(s[1..])
  }

  /** `replace(/ /g, '_')`: every space, not only the first, becomes `_`. */
  function ReplaceSpaces(s: string): (r: string)
    ensures |r| == |s|
    ensures forall i :: 0 <= i < |s| ==> r[i] == (if s[i] == ' ' then '_' else s[i])
  {
    if s == [] then []
    else [if s[0] == ' ' then '_' else s[0]] + ReplaceSpaces(s[1..])
  }

  /** The stem of the file name: lower-cased first, then spaces replaced. */
  function Stem(name: string): (r: string)
    ensures |r| == |name|
    ensures forall i :: 0 <= i < |name| ==> r[i] == StemChar(name[i])
    ensures forall i :: 0 <= i < |r| ==> r[i] != ' ' && !IsUpper(r[i])
  {
    ReplaceSpaces(ToLower(name))
  }

  /** `toFileName(name)`. */
  function ToFileName(name: string): (r: string)
    ensures |r| == |name| + |Extension|
    ensures r[|name|..] == Extension
    ensures r[..|name|] == Stem(name)
    ensures forall i :: 0 <= i < |name| ==> r[i] != ' ' && !IsUpper(r[i])
  {
    Stem(name) + Extension
  }

  /** Normalising a stem again changes nothing. */
  lemma StemIdempotent(name: string)
    ensures Stem(Stem(name)) == Stem(name)
  {
    var s := Stem(name);
    forall i | 0 <= i < |s| ensures Stem(s)[i] == s[i] {
      assert s[i] != ' ' && !IsUpper(s[i]);
    }
  }

  /** Two values share a partition exactly when they agree character by
      character after normalisation. */
  lemma SameFileNameIff(a: string, b: string)
    ensures ToFileName(a) == ToFileName(b) <==>
              |a| == |b| && forall i :: 0 <= i < |a| ==> StemChar(a[i]) == StemChar(b[i])
  {
    if ToFileName(a) == ToFileName(b) {
      assert |a| == |b|;
      forall i | 0 <= i < |a| ensures StemChar(a[i]) == StemChar(b[i]) {
        assert ToFileName(a)[i] == ToFileName(b)[i];
      }
    }
    if |a| == |b| && forall i :: 0 <= i < |a| ==> StemChar(a[i]) == StemChar(b[i]) {
      assert Stem(a) == Stem(b);
    }
  }

  /** Distinct property values can name the same partition: their tiles are
      merged into one archive. */
  lemma DistinctValuesCollide()
    ensures "A b" != "a_b" && ToFileName("A b") == ToFileName("a_b")
  {
    SameFileNameIff("A b", "a_b");
    assert StemChar('A') == StemChar('a');
    assert StemChar(' ') == StemChar('_');
  }
}
