/** Naming of screenshot files: the suffix test, the default `.png`
    extension, and how `matchImage` builds the captured and the baseline
    file names from its parameters. */
module ImageNames {
  import opened JsStrings

  /** Reference meaning of "`needle` is a suffix of `s`": the characters of
      `needle` are the last `|needle|` characters of `s`, one by one. */
  predicate IsSuffix(needle: string, s: string) {
    |needle| <= |s| &&
    forall j :: 0 <= j < |needle| ==> needle[j] == s[|s| - |needle| + j]
  }

  /** `endsWith(string, needle)`: compares `string.substr(-needle.length,
      needle.length)` with the needle. */
  function EndsWith(s: string, needle: string): (r: bool)
    ensures r <==> IsSuffix(needle, s)
  {
    var tail := Substr(s, -1 * |needle|, |needle|);
    assert |needle| <= |s| ==> tail == s[|s| - |needle|..];
    assert IsSuffix(needle, s) ==> tail == needle by {
      if IsSuffix(needle, s) {
        assert forall j :: 0 <= j < |needle| ==> tail[j] == needle[j];
      }
    }
    tail == needle
  }

  /** The empty needle ends every string; a needle longer than the string
      ends none. */
  lemma EndsWithEdgeCases(s: string, needle: string)
    ensures EndsWith(s, "")
    ensures |needle| > |s| ==> !EndsWith(s, needle)
  {
  }

  predicate HasImageOrTextExtension(name: string) {
    IsSuffix(".png", name) || IsSuffix(".txt", name)
  }

  /** `assumeFileIsImageIfNotSpecified`: a name without a `.png` or `.txt`
      ending is taken to be a PNG image. */
  function AssumeFileIsImage(name: string): (r: string)
    ensures HasImageOrTextExtension(name) ==> r == name
    ensures !HasImageOrTextExtension(name) ==> r == name + ".png"
    ensures IsSuffix(".png", r) || IsSuffix(".txt", r)
  {
    if !EndsWith(name, ".png") && !EndsWith(name, ".txt") then name + ".png" else name
  }

  /** Normalising a name that is already normalised changes nothing, so the
      repeated normalisation on the way to a file path is harmless. */
  lemma AssumeFileIsImageIdempotent(name: string)
    ensures AssumeFileIsImage(AssumeFileIsImage(name)) == AssumeFileIsImage(name)
  {
  }

  /** The parameter object of `matchImage`; `None` is an absent property. */
  datatype MatchParams = MatchParams(
    imageName: string,
    compareAgainst: Option<string>,
    comparisonThreshold: Option<real>,
    prefix: Option<string>)

  /** `matchImage` takes either a bare image name or a parameter object. */
  datatype MatchArgument = ImageName(name: string) | Params(params: MatchParams)

  function ToParams(arg: MatchArgument): (p: MatchParams)
    ensures arg.ImageName? ==> p == MatchParams(arg.name, None, None, None)
  {
    match arg
    case ImageName(name) => MatchParams(name, None, None, None)
    case Params(params) => params
  }

  /** JavaScript truthiness of an optional string: absent and empty are false. */
  predicate Truthy(o: Option<string>) {
    o.Some? && o.value != ""
  }

  /** The name-building part of `matchImage`: the prefix (defaulting to the
      running suite's title) is joined to the image name by `_`, the
      baseline name defaults to that prefixed name, and both are then given
      their default extension. */
  method ResolveNames(arg: MatchArgument, suiteTitle: string) returns (imageName: string, compareAgainst: string)
    ensures var p := ToParams(arg);
      var prefix := if Truthy(p.prefix) then p.prefix.value else suiteTitle;
      imageName == AssumeFileIsImage(prefix + "_" + p.imageName)
    ensures var p := ToParams(arg);
      Truthy(p.compareAgainst) ==> compareAgainst == AssumeFileIsImage(p.compareAgainst.value)
    ensures !Truthy(ToParams(arg).compareAgainst) ==> compareAgainst == imageName
    ensures HasImageOrTextExtension(imageName) && HasImageOrTextExtension(compareAgainst)
  {
    var params := ToParams(arg);
    var prefix := params.prefix;
    if !Truthy(prefix) {
      prefix := Some(suiteTitle);
    }
    imageName := prefix.value + "_" + params.imageName;
    compareAgainst := if Truthy(params.compareAgainst) then params.compareAgainst.value else imageName;
    imageName := AssumeFileIsImage(imageName);
    compareAgainst := AssumeFileIsImage(compareAgainst);
  }
}
