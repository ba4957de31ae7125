/** `parseGoogleLensInput`: classifies a string as a web address, base64
    image data or a file path. */
module ImageData {
  import opened Common

  /** Exactly one of `url`, `base64` and `filePath` is set. */
  datatype LensInput = Url(url: string) | Base64(base64: string) | FilePath(filePath: string)

  function ValueOf(r: LensInput): string {
    match r
    case Url(u) => u
    case Base64(b) => b
    case FilePath(p) => p
  }

  /** `[A-Za-z0-9+/=]`. */
  predicate IsBase64Char(c: char) {
    IsAsciiLetter(c) || IsDigit(c) || c == '+' || c == '/' || c == '='
  }

  /** `/^[A-Za-z0-9+/=]+$/` matches and the length is a multiple of 4. */
  predicate LooksLikeBase64(s: string) {
    |s| > 0 && (forall i :: 0 <= i < |s| ==> IsBase64Char(s[i])) && |s| % 4 == 0
  }

  predicate IsWebAddress(s: string) { StartsWith(s, "http://") || StartsWith(s, "https://") }

  function ParseGoogleLensInput(input: string): (r: LensInput)
    ensures ValueOf(r) == input
    ensures r.Url? <==> IsWebAddress(input)
    ensures r.Base64? <==> !IsWebAddress(input) && (StartsWith(input, "data:image/") || LooksLikeBase64(input))
  {
    if IsWebAddress(input) then Url(input)
    else if StartsWith(input, "data:image/") || LooksLikeBase64(input) then Base64(input)
    else FilePath(input)
  }

  /** A path is what is neither a web address nor image data; the empty
      string is a path. */
  lemma FilePathCases(input: string)
    ensures ParseGoogleLensInput(input).FilePath? <==>
      !IsWebAddress(input) && !StartsWith(input, "data:image/") && !LooksLikeBase64(input)
    ensures ParseGoogleLensInput("") == FilePath("")
  {
  }

  /** Any string that contains a character outside the base64 alphabet,
      and is neither a web address nor a data URL, is a path. */
  lemma NonBase64IsPath(input: string, i: int)
    requires 0 <= i < |input| && !IsBase64Char(input[i])
    requires !IsWebAddress(input) && !StartsWith(input, "data:image/")
    ensures ParseGoogleLensInput(input) == FilePath(input)
  {
  }
}
