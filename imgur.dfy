/** Image hosting: picks the image data from the options, strips a data-URL
    prefix from base64 text, and maps the host's answer to a result record.
    The upload itself and reading a file are given as functions. */
module Imgur {
  import opened Common

  newtype byte = b: int | 0 <= b < 256

  datatype UploadOptions = UploadOptions(base64: Option<string>, filePath: Option<string>)

  /** `error` is `None` when the record has no `error` field. */
  datatype UploadResult = UploadResult(success: bool, url: string, error: Option<string>)

  /** What the host is sent: base64 text or the bytes of a file. */
  datatype ImageBody = Base64Text(text: string) | FileBytes(bytes: seq<byte>)

  /** A thrown value: an `Error` with its message, or anything else. */
  datatype Thrown = ErrorObject(message: string) | OtherThrown

  /** The host's answer: a response with its `success` flag and link, or a
      thrown value. */
  datatype UploadOutcome = Responded(success: bool, link: string) | Threw(thrown: Thrown)

  datatype Host = Host(
    upload: ImageBody -> UploadOutcome,
    readFile: string -> Result<seq<byte>>)

  datatype Result<T> = Ok(value: T) | Failure(thrown: Thrown)

  const MissingInput := "Either base64 or filePath must be provided"
  const UploadFailed := "Failed to upload image to Imgur"
  const UnknownError := "Unknown error occurred"

  predicate Present(s: Option<string>) { s.Some? && s.value != "" }

  function MessageOf(t: Thrown): string {
    match t
    case ErrorObject(m) => m
    case OtherThrown => UnknownError
  }

  function Failed(error: string): (r: UploadResult)
    ensures !r.success && r.url == "" && r.error == Some(error)
  {
    UploadResult(false, "", Some(error))
  }

  // ---------------------------------------------------------------------
  // `base64.replace(/^data:image\/\w+;base64,/, "")`

  const DataPrefix := "data:image/"
  const Base64Marker := ";base64,"

  /** The length of the run of word characters starting at `j`. */
  function WordRun(s: string, j: nat): (n: nat)
    requires j <= |s|
    ensures j + n <= |s|
    ensures forall k :: j <= k < j + n ==> IsWordChar(s[k])
    ensures j + n == |s| || !IsWordChar(s[j + n])
    decreases |s| - j
  {
    if j < |s| && IsWordChar(s[j]) then 1 + WordRun(s, j + 1) else 0
  }

  /** The length of the data-URL prefix at the start of `s`, if any. */
  function DataUrlPrefixLength(s: string): (r: Option<nat>)
    ensures r.Some? ==> r.value <= |s| && StartsWith(s, DataPrefix)
    ensures r.Some? ==> |Base64Marker| <= r.value && s[r.value - |Base64Marker|..r.value] == Base64Marker
  {
    if !StartsWith(s, DataPrefix) then None
    else
      var n := WordRun(s, |DataPrefix|);
      var end := |DataPrefix| + n + |Base64Marker|;
      if n > 0 && end <= |s| && s[|DataPrefix| + n..end] == Base64Marker then Some(end) else None
  }

  function StripDataUrl(s: string): (r: string)
    ensures |r| <= |s| && r == s[|s| - |r|..]
    ensures DataUrlPrefixLength(s).None? ==> r == s
  {
    match DataUrlPrefixLength(s)
    case None => s
    case Some(k) => s[k..]
  }

  /** Text that starts with `data:image/<word>;base64,` loses exactly that
      prefix. */
  lemma StripDataUrlPrefix(kind: string, payload: string)
    requires kind != [] && forall i :: 0 <= i < |kind| ==> IsWordChar(kind[i])
    ensures StripDataUrl(DataPrefix + kind + Base64Marker + payload) == payload
  {
    var s := DataPrefix + kind + Base64Marker + payload;
    assert s[..|DataPrefix|] == DataPrefix;
    assert forall k :: 0 <= k < |kind| ==> s[|DataPrefix| + k] == kind[k];
    var n := WordRun(s, |DataPrefix|);
    assert s[|DataPrefix| + |kind|] == ';';
    assert n == |kind|;
    assert s[|DataPrefix| + n..|DataPrefix| + n + |Base64Marker|] == Base64Marker;
    assert s[|DataPrefix| + n + |Base64Marker|..] == payload;
  }

  /** The prefix is removed once: a payload that itself starts with a
      data-URL prefix keeps it. */
  lemma StripOnce(kind: string, inner: string)
    requires kind != [] && forall i :: 0 <= i < |kind| ==> IsWordChar(kind[i])
    ensures var payload := DataPrefix + kind + Base64Marker + inner;
      StripDataUrl(DataPrefix + kind + Base64Marker + payload) == payload
  {
    StripDataUrlPrefix(kind, DataPrefix + kind + Base64Marker + inner);
  }

  // ---------------------------------------------------------------------
  // Uploading

  /** `uploadToImgur`. */
  function UploadToImgur(host: Host, body: ImageBody): (r: UploadResult)
    ensures r.success <==> host.upload(body).Responded? && host.upload(body).success
    ensures r.success ==> r.url == host.upload(body).link && r.error == None
    ensures host.upload(body).Responded? && !host.upload(body).success ==> r == Failed(UploadFailed)
    ensures host.upload(body).Threw? ==> r == Failed(MessageOf(host.upload(body).thrown))
  {
    match host.upload(body)
    case Threw(t) => Failed(MessageOf(t))
    case Responded(success, link) =>
      if !success then Failed(UploadFailed) else UploadResult(true, link, None)
  }

  /** The body sent for the options: stripped base64 text when base64 is
      given, else the bytes read from the path. */
  function BodyOf(host: Host, options: UploadOptions): (r: Option<Result<ImageBody>>)
    ensures r.None? <==> !Present(options.base64) && !Present(options.filePath)
    ensures Present(options.base64) ==> r == Some(Ok(Base64Text(StripDataUrl(options.base64.value))))
  {
    if Present(options.base64) then Some(Ok(Base64Text(StripDataUrl(options.base64.value))))
    else if Present(options.filePath) then
      match host.readFile(options.filePath.value)
      case Failure(t) => Some(Failure(t))
      case Ok(bytes) => Some(Ok(FileBytes(bytes)))
    else None
  }

  /** `uploadImage`. */
  function UploadImage(host: Host, options: UploadOptions): UploadResult {
    match BodyOf(host, options)
    case None => Failed(MissingInput)
    case Some(Failure(t)) => Failed(MessageOf(t))
    case Some(Ok(body)) => UploadToImgur(host, body)
  }

  /** Without base64 text or a path (an empty string counts as none) the
      upload is refused; base64 text wins over a path and is sent without
      its data-URL prefix; a success carries the link and no error, and a
      failure has an empty URL and an error message. */
  lemma UploadImageProperties(host: Host, options: UploadOptions)
    ensures var r := UploadImage(host, options);
      && (!Present(options.base64) && !Present(options.filePath) ==> r == Failed(MissingInput))
      && (Present(options.base64) ==>
            r == UploadToImgur(host, Base64Text(StripDataUrl(options.base64.value))))
      && (!Present(options.base64) && Present(options.filePath)
          && host.readFile(options.filePath.value).Ok? ==>
            r == UploadToImgur(host, FileBytes(host.readFile(options.filePath.value).value)))
      && (r.success ==> r.error == None)
      && (!r.success ==> r.url == "" && r.error.Some?)
  {
  }

  /** A data URL is uploaded without its prefix, and a success gives the
      link and no error. */
  lemma UploadDataUrl(host: Host, kind: string, payload: string, link: string)
    requires kind != [] && forall i :: 0 <= i < |kind| ==> IsWordChar(kind[i])
    requires host.upload(Base64Text(payload)) == Responded(true, link)
    ensures UploadImage(host, UploadOptions(Some(DataPrefix + kind + Base64Marker + payload), None))
      == UploadResult(true, link, None)
  {
    StripDataUrlPrefix(kind, payload);
  }

  /** A refused upload and a thrown network error, for text without a
      data-URL prefix. */
  lemma UploadFailureExamples(host: Host)
    requires host.upload(Base64Text("invalid-data")) == Responded(false, "")
    requires host.upload(Base64Text("valid-data")) == Threw(ErrorObject("Network error"))
    ensures UploadImage(host, UploadOptions(Some("invalid-data"), None)) == Failed(UploadFailed)
    ensures UploadImage(host, UploadOptions(Some("valid-data"), None)) == Failed("Network error")
    ensures UploadImage(host, UploadOptions(None, None)) == Failed(MissingInput)
  {
    assert "invalid-data"[..|DataPrefix|][0] == 'i';
  }
}
