/** File name rewrites: the upload output name (`\.txt$` replaced by `.json`) and the
    enqueue base name (`\.json$` removed), both as plain suffix replacement. */
module FileNames {
  import opened Strings

  const TxtSuffix: string := ".txt"
  const JsonSuffix: string := ".json"

  /** The listing filter of the upload pipeline. */
  predicate IsTxt(name: string) {
    EndsWith(name, TxtSuffix)
  }

  /** The listing filter of the enqueue pipeline. */
  predicate IsJson(name: string) {
    EndsWith(name, JsonSuffix)
  }

  /** The name under which the upload pipeline saves a response: a trailing `.txt`
      becomes `.json`; a name without it is left alone. */
  function OutputName(name: string): (out: string)
    ensures IsTxt(name) ==> IsJson(out) && |out| == |name| + 1
    ensures IsTxt(name) ==> out[..|out| - |JsonSuffix|] == name[..|name| - |TxtSuffix|]
    ensures !IsTxt(name) ==> out == name
  {
    if IsTxt(name) then name[..|name| - |TxtSuffix|] + JsonSuffix else name
  }

  /** The base identifier the enqueue pipeline derives: a trailing `.json` is removed;
      a name without it is left alone. */
  function BaseName(name: string): (base: string)
    ensures IsJson(name) ==> base + JsonSuffix == name
    ensures !IsJson(name) ==> base == name
  {
    if IsJson(name) then name[..|name| - |JsonSuffix|] else name
  }

  /** Upload keeps the stem: `stem.txt` is saved as `stem.json`. */
  lemma OutputNameOfStem(stem: string)
    ensures IsTxt(stem + TxtSuffix)
    ensures OutputName(stem + TxtSuffix) == stem + JsonSuffix
  {
  }

  /** Enqueue recovers the stem: `stem.json` has base name `stem`. */
  lemma BaseNameOfStem(stem: string)
    ensures IsJson(stem + JsonSuffix)
    ensures BaseName(stem + JsonSuffix) == stem
  {
  }

  /** The round trip through the destination folder: what upload writes for a `.txt` file is
      picked up by enqueue, whose base name is the `.txt` file's stem. */
  lemma BaseNameOfOutputName(name: string)
    requires IsTxt(name)
    ensures IsJson(OutputName(name))
    ensures BaseName(OutputName(name)) + TxtSuffix == name
  {
  }

  /** Distinct `.txt` files never share an output file. */
  lemma OutputNameInjective(a: string, b: string)
    requires IsTxt(a) && IsTxt(b)
    requires OutputName(a) == OutputName(b)
    ensures a == b
  {
  }

  /** Distinct `.json` files never share a base name. */
  lemma BaseNameInjective(a: string, b: string)
    requires IsJson(a) && IsJson(b)
    requires BaseName(a) == BaseName(b)
    ensures a == b
  {
  }
}
