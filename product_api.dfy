/** The form the client sends with a photo: the file name and MIME type
    derived from the image URI. */
module ProductApi {
  import opened Common

  /** The position after the last `c` in `s`, or 0 when there is none. */
  function AfterLast(s: string, c: char): (k: nat)
    ensures k <= |s|
    ensures k > 0 ==> s[k - 1] == c
    ensures forall i :: k <= i < |s| ==> s[i] != c
    decreases |s|
  {
    if s == [] then 0
    else if s[|s| - 1] == c then |s|
    else AfterLast(s[..|s| - 1], c)
  }

  /** `imageUri.split('/').pop()`. */
  function FileName(uri: string): (name: string)
    ensures forall i :: 0 <= i < |name| ==> name[i] != '/'
    ensures exists k :: 0 <= k <= |uri| && name == uri[k..] && (k == 0 || uri[k - 1] == '/')
  {
    var k := AfterLast(uri, '/');
    uri[k..]
  }

  /** With no `/` the name is the whole URI. */
  lemma FileNameWithoutSlash(uri: string)
    requires forall i :: 0 <= i < |uri| ==> uri[i] != '/'
    ensures FileName(uri) == uri
  {
    assert AfterLast(uri, '/') == 0;
  }

  /** `/\.(\w+)$/` can match at `i`: a dot there, then one or more word
      characters up to the end. */
  predicate ExtensionAt(name: string, i: int) {
    0 <= i < |name| - 1 && name[i] == '.' && forall j :: i < j < |name| ==> IsWordChar(name[j])
  }

  /** The leftmost position from `i` on where the extension pattern
      matches. */
  function FirstExtensionFrom(name: string, i: nat): (r: Option<nat>)
    ensures r.Some? ==> i <= r.value && ExtensionAt(name, r.value)
    ensures r.Some? ==> forall j :: i <= j < r.value ==> !ExtensionAt(name, j)
    ensures r.None? ==> forall j :: i <= j ==> !ExtensionAt(name, j)
    decreases |name| - i
  {
    if i + 1 >= |name| then None
    else if ExtensionAt(name, i) then Some(i)
    else FirstExtensionFrom(name, i + 1)
  }

  /** `match ? \`image/${match[1]}\` : "image"`. */
  function ImageType(name: string): string {
    match FirstExtensionFrom(name, 0)
    case None => "image"
    case Some(i) => "image/" + name[i + 1..]
  }

  /** The text after the last dot: non-empty and all word characters. */
  predicate WordSuffix(name: string) {
    var k := AfterLast(name, '.');
    k > 0 && k < |name| && forall j :: k <= j < |name| ==> IsWordChar(name[j])
  }

  /** The pattern can match only at the last dot, and only when a word
      suffix follows it. */
  lemma ExtensionIsLastDot(name: string, i: int)
    ensures ExtensionAt(name, i) ==> i == AfterLast(name, '.') - 1 && WordSuffix(name)
  {
    if ExtensionAt(name, i) {
      assert !IsWordChar('.');
      assert AfterLast(name, '.') == i + 1;
    }
  }

  /** The type is `image/` and the text after the last dot when that text
      is non-empty and all word characters; otherwise it is `image`. */
  lemma ImageTypeIsLastSuffix(name: string)
    ensures var k := AfterLast(name, '.');
      ImageType(name) == if WordSuffix(name) then "image/" + name[k..] else "image"
  {
    var k := AfterLast(name, '.');
    if WordSuffix(name) {
      assert ExtensionAt(name, k - 1);
      ExtensionIsLastDot(name, FirstExtensionFrom(name, 0).value);
    } else {
      forall j | 0 <= j ensures !ExtensionAt(name, j) {
        ExtensionIsLastDot(name, j);
      }
    }
  }

  datatype ImageFile = ImageFile(uri: string, mimeType: string, name: string)

  /** The single `image` field of the form sent to the server. */
  datatype FormField = FormField(field: string, file: ImageFile)

  function ImageForm(uri: string): (form: seq<FormField>)
    ensures |form| == 1 && form[0].field == "image"
    ensures form[0].file.uri == uri && form[0].file.name == FileName(uri)
    ensures form[0].file.mimeType == ImageType(FileName(uri))
  {
    var name := FileName(uri);
    [FormField("image", ImageFile(uri, ImageType(name), name))]
  }
}
