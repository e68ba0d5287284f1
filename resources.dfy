/**
 * The parts of a resource that the graph reconciler reads or writes: its kind, its name, the
 * no-op meta parameter and the collect pattern. Everything kind-specific is kept as opaque
 * parameters.
 */
module Resources {
  import opened Wrappers

  /** One kind-specific parameter, never interpreted by the reconciler. */
  datatype Param = Param(key: string, value: string)

  datatype Resource = Resource(
    kind: string,                    // what Kind() returns
    name: string,                    // what GetName() returns
    noop: bool,                      // the Noop meta parameter
    collectPattern: Option<string>,  // set by CollectPattern when a collector rule has a pattern
    params: seq<Param>)

  /** The two-character prefix that marks a declared resource as exported. */
  const ExportMarker: string := "@@"

  predicate IsLowerAscii(ch: char) {
    'a' <= ch <= 'z'
  }

  /** ASCII upper-casing of one character; any other character is left alone. */
  function ToUpperAscii(ch: char): (r: char)
    ensures !IsLowerAscii(r)
    ensures r == ch <==> !IsLowerAscii(ch)
    ensures IsLowerAscii(ch) ==> r as int == ch as int - 32
  {
    if IsLowerAscii(ch) then (ch as int - 32) as char else ch
  }

  /** Upper-cases the first character of a kind name, as kinds are spelt in the graph. */
  function FirstToUpper(s: string): (r: string)
    ensures |r| == |s|
    ensures |s| > 0 ==> r[0] == ToUpperAscii(s[0]) && !IsLowerAscii(r[0]) && r[1..] == s[1..]
    ensures r == s <==> (s == [] || !IsLowerAscii(s[0]))
  {
    seq(|s|, i requires 0 <= i < |s| => if i == 0 then ToUpperAscii(s[0]) else s[i])
  }

  /** The name of a resource that is only to be published for other hosts. */
  predicate IsExported(name: string) {
    |name| >= 2 && name[..2] == ExportMarker
  }

  /** The marker test is a prefix test: a name is marked exactly when it is the marker and a rest. */
  lemma ExportedIsPrefixed(name: string)
    ensures IsExported(name) <==> exists rest :: name == ExportMarker + rest
  {
    if IsExported(name) {
      assert name == ExportMarker + name[2..];
    }
  }

  /** The name an exported resource is published under: the marker sliced off. */
  function Unmarked(name: string): (r: string)
    requires IsExported(name)
    ensures ExportMarker + r == name
    ensures |r| == |name| - 2
  {
    name[2..]
  }
}
