/** The product-card agent's own logic around the language model: guessing a
    product name from the user's message, looking it up with the
    name-search tool, adding what it finds to the message, and the error
    card.  The model, the tool, Google Lens and `JSON.stringify` are given
    as functions. */
module ProductCardAgent {
  import opened Common

  // ---------------------------------------------------------------------
  // Runs of characters

  /** The length of the run of characters satisfying `p` that starts at `j`. */
  function RunLen(s: string, j: nat, p: char -> bool): (n: nat)
    requires j <= |s|
    ensures j + n <= |s|
    ensures forall k :: j <= k < j + n ==> p(s[k])
    ensures j + n == |s| || !p(s[j + n])
    decreases |s| - j
  {
    if j < |s| && p(s[j]) then 1 + RunLen(s, j + 1, p) else 0
  }

  predicate NotSpace(c: char) { !IsJsSpace(c) }

  /** The characters the name capture stops at: `[^?.!,;:]`. */
  predicate IsStop(c: char) { c == '?' || c == '.' || c == '!' || c == ',' || c == ';' || c == ':' }

  predicate NotStop(c: char) { !IsStop(c) }

  predicate HasNoStop(s: string) { forall k :: 0 <= k < |s| ==> !IsStop(s[k]) }

  /** Every character of `s[lo..hi]` satisfies `p`. */
  predicate AllIn(s: string, lo: nat, hi: nat, p: char -> bool)
    requires lo <= hi <= |s|
  {
    forall k :: lo <= k < hi ==> p(s[k])
  }

  /** `t` occurs in `s` at position `a`. */
  predicate SliceAt(s: string, a: nat, t: string) { a + |t| <= |s| && s[a..a + |t|] == t }

  // ---------------------------------------------------------------------
  // extractProductName

  /** The trigger alternatives, in the order the pattern tries them. */
  const Triggers: seq<string> :=
    ["about", "information on", "info on", "details on", "what is", "tell me about", "product card for"]

  /** `phrase` (lower case) occurs at `i`, ignoring the case of ASCII letters. */
  predicate PhraseAt(s: string, i: nat, phrase: string) {
    i + |phrase| <= |s| && Lower(s[i..i + |phrase|]) == phrase
  }

  /** `c` starts right after a run of spaces from `j` and ends at the first
      of `?.!,;:` after it, or at the end of `s`. */
  predicate CaptureSpan(s: string, j: nat, c: string) {
    exists a :: j < a <= |s| && SliceAt(s, a, c)
      && AllIn(s, j, a, IsJsSpace)
      && (a + |c| == |s| || IsStop(s[a + |c|]))
  }

  /** Position `a` witnesses the capture span of `c`. */
  lemma SpanAt(s: string, j: nat, a: nat, c: string)
    requires j < a && a + |c| <= |s| && s[a..a + |c|] == c
    requires AllIn(s, j, a, IsJsSpace)
    requires a + |c| == |s| || IsStop(s[a + |c|])
    ensures CaptureSpan(s, j, c)
  {
    assert SliceAt(s, a, c);
  }

  /** What `\s+([^?.!,;:]+)` captures from `j`: the greedy space run, then
      the greedy name run; when no name character follows the spaces, the
      space run gives back its last space, which the capture then takes on
      its own. */
  function CaptureAt(s: string, j: nat): (r: Option<string>)
    requires j <= |s|
    ensures r.Some? ==> |r.value| > 0 && HasNoStop(r.value)
  {
    var w := RunLen(s, j, IsJsSpace);
    if w == 0 then None
    else
      var n := RunLen(s, j + w, NotStop);
      if n > 0 then
        Some(s[j + w..j + w + n])
      else if w >= 2 then
        assert IsJsSpace(s[j + w - 1]);
        Some(s[j + w - 1..j + w])
      else None
  }

  /** A capture is the piece after the space run: the greedy run of
      non-stop characters right after it, or, when that run is empty, the
      run's own last space. */
  lemma CaptureAtSpan(s: string, j: nat)
    requires j <= |s|
    ensures CaptureAt(s, j).Some? ==> CaptureSpan(s, j, CaptureAt(s, j).value)
  {
    var w := RunLen(s, j, IsJsSpace);
    if w > 0 {
      assert AllIn(s, j, j + w, IsJsSpace);
      var n := RunLen(s, j + w, NotStop);
      assert j + w + n == |s| || !NotStop(s[j + w + n]);
      if n > 0 {
        assert CaptureAt(s, j) == Some(s[j + w..j + w + n]);
        SpanAt(s, j, j + w, s[j + w..j + w + n]);
      } else if w >= 2 {
        assert CaptureAt(s, j) == Some(s[j + w - 1..j + w]);
        SpanAt(s, j, j + w - 1, s[j + w - 1..j + w]);
      }
    }
  }

  /** There is no capture exactly when no space follows `j`, or a single
      space is followed by the end of the input or one of `?.!,;:`. */
  lemma CaptureAtNone(s: string, j: nat)
    requires j <= |s|
    ensures CaptureAt(s, j).None? <==> j == |s| || !IsJsSpace(s[j]) || j + 1 == |s| || IsStop(s[j + 1])
  {
    var w := RunLen(s, j, IsJsSpace);
    if w == 1 && j + 1 < |s| {
      var n := RunLen(s, j + 1, NotStop);
      assert !IsJsSpace(s[j + 1]);
      assert n > 0 <==> !IsStop(s[j + 1]);
    } else if w >= 2 {
      assert IsJsSpace(s[j + 1]);
    }
  }

  /** The least index in `[lo, hi)` that satisfies `p`: the leftmost
      alternative or position a regular expression tries first. */
  function FirstWhere(lo: nat, hi: nat, p: nat -> bool): (r: Option<nat>)
    ensures r.Some? ==> lo <= r.value < hi && p(r.value)
    ensures r.Some? ==> forall k :: lo <= k < r.value ==> !p(k)
    ensures r.None? ==> forall k :: lo <= k < hi ==> !p(k)
    decreases hi - lo
  {
    if lo >= hi then None
    else if p(lo) then Some(lo)
    else FirstWhere(lo + 1, hi, p)
  }

  /** Trigger `k` occurs at `i` and a capture follows it. */
  predicate TriggerFits(s: string, i: nat, triggers: seq<string>, k: nat) {
    k < |triggers| && PhraseAt(s, i, triggers[k]) && CaptureAt(s, i + |triggers[k]|).Some?
  }

  /** The first of `triggers` that matches at `i` with a capture after it. */
  function TriggerAt(s: string, i: nat, triggers: seq<string>): Option<nat> {
    FirstWhere(0, |triggers|, (k: nat) => TriggerFits(s, i, triggers, k))
  }

  /** A trigger followed by a capture starts at `i`. */
  predicate MatchesAt(s: string, i: nat, triggers: seq<string>) {
    TriggerAt(s, i, triggers).Some?
  }

  /** `m` is the leftmost position where the pattern matches. */
  predicate LeftmostMatch(s: string, m: nat, triggers: seq<string>) {
    MatchesAt(s, m, triggers) && forall m' :: 0 <= m' < m ==> !MatchesAt(s, m', triggers)
  }

  /** The leftmost position where the pattern matches. */
  function FirstMatch(s: string, triggers: seq<string>): Option<nat> {
    FirstWhere(0, |s| + 1, (m: nat) => MatchesAt(s, m, triggers))
  }

  /** The position found is the leftmost match, and one is found whenever
      the pattern matches anywhere. */
  lemma FirstMatchIsLeftmost(s: string, triggers: seq<string>, m: nat)
    ensures FirstMatch(s, triggers).Some? ==> LeftmostMatch(s, FirstMatch(s, triggers).value, triggers)
    ensures m <= |s| && MatchesAt(s, m, triggers) ==> FirstMatch(s, triggers).Some?
  {
    var p := (m: nat) => MatchesAt(s, m, triggers);
    var r := FirstWhere(0, |s| + 1, p);
    if r.Some? {
      forall m' | 0 <= m' < r.value ensures !MatchesAt(s, m', triggers) {
        assert !p(m');
      }
    }
    if m <= |s| && MatchesAt(s, m, triggers) {
      assert p(m);
    }
  }

  /** `s.split(/\s+/)`: the pieces between maximal runs of spaces. */
  function SplitWs(s: string): (r: seq<string>)
    ensures |r| >= 1
    ensures forall k :: 0 <= k < |r| ==> forall j :: 0 <= j < |r[k]| ==> !IsJsSpace(r[k][j])
    decreases |s|
  {
    var n := RunLen(s, 0, NotSpace);
    if n == |s| then [s]
    else
      var w := RunLen(s, n, IsJsSpace);
      [s[..n]] + SplitWs(s[n + w..])
  }

  /** A string with no space is one piece; a string with a space is more. */
  lemma SplitWsSingle(s: string)
    ensures |SplitWs(s)| == 1 <==> forall j :: 0 <= j < |s| ==> !IsJsSpace(s[j])
  {
    var n := RunLen(s, 0, NotSpace);
    if n < |s| {
      assert IsJsSpace(s[n]);
    }
  }

  /** `extractProductName`. */
  function ExtractProductName(input: string): Option<string> {
    ExtractName(input, Triggers)
  }

  /** `extractProductName` for a pattern with the alternatives `triggers`. */
  function ExtractName(input: string, triggers: seq<string>): Option<string> {
    match FirstMatch(input, triggers)
    case Some(m) => Some(CapturedName(input, m, triggers))
    case None => ShortMessageName(input)
  }

  /** The trimmed capture of the first trigger that matches at `m`. */
  function CapturedName(input: string, m: nat, triggers: seq<string>): string
    requires MatchesAt(input, m, triggers)
  {
    var k := TriggerAt(input, m, triggers).value;
    Trim(CaptureAt(input, m + |triggers[k]|).value)
  }

  /** Without a trigger, a message of fewer than five pieces is the name. */
  function ShortMessageName(input: string): Option<string> {
    if |SplitWs(input)| < 5 then Some(Trim(input)) else None
  }

  /** Trigger `k` matches at `m` and `name` is its trimmed capture. */
  predicate TriggerCapture(s: string, m: nat, triggers: seq<string>, k: int, name: string) {
    && 0 <= k < |triggers| && PhraseAt(s, m, triggers[k])
    && CaptureAt(s, m + |triggers[k]|).Some?
    && CaptureSpan(s, m + |triggers[k]|, CaptureAt(s, m + |triggers[k]|).value)
    && name == Trim(CaptureAt(s, m + |triggers[k]|).value)
  }

  /** Trimming a piece without `?.!,;:` leaves a piece without them. */
  lemma TrimKeepsNoStop(s: string)
    requires HasNoStop(s)
    ensures HasNoStop(Trim(s))
  {
    TrimChars(s, IsJsSpace);
    var r := Trim(s);
    forall j | 0 <= j < |r| ensures !IsStop(r[j]) {
      assert r[j] in s;
    }
  }

  /** With a trigger match, the result is the trimmed capture of the
      leftmost match, a piece of the input after the trigger that holds none
      of `?.!,;:`. */
  lemma ExtractByTrigger(input: string, triggers: seq<string>)
    requires exists m :: 0 <= m <= |input| && MatchesAt(input, m, triggers)
    ensures var r := ExtractName(input, triggers);
      && r.Some?
      && HasNoStop(r.value)
      && exists m, k :: LeftmostMatch(input, m, triggers) && TriggerCapture(input, m, triggers, k, r.value)
  {
    var m0 :| 0 <= m0 <= |input| && MatchesAt(input, m0, triggers);
    FirstMatchIsLeftmost(input, triggers, m0);
    var m := FirstMatch(input, triggers).value;
    CapturedNameIsCapture(input, m, triggers);
    CapturedNameNoStop(input, m, triggers);
  }

  /** The name taken at a match is the trimmed capture of a trigger. */
  lemma CapturedNameIsCapture(input: string, m: nat, triggers: seq<string>)
    requires MatchesAt(input, m, triggers)
    ensures exists k :: TriggerCapture(input, m, triggers, k, CapturedName(input, m, triggers))
  {
    var k := TriggerAt(input, m, triggers).value;
    CaptureAtSpan(input, m + |triggers[k]|);
    assert TriggerCapture(input, m, triggers, k, CapturedName(input, m, triggers));
  }

  /** The name taken at a match holds none of `?.!,;:`. */
  lemma CapturedNameNoStop(input: string, m: nat, triggers: seq<string>)
    requires MatchesAt(input, m, triggers)
    ensures HasNoStop(CapturedName(input, m, triggers))
  {
    var k := TriggerAt(input, m, triggers).value;
    TrimKeepsNoStop(CaptureAt(input, m + |triggers[k]|).value);
  }

  /** Without a trigger match, fewer than five pieces give the trimmed
      input, and anything longer gives nothing. */
  lemma ExtractWithoutTrigger(input: string, triggers: seq<string>)
    requires forall m :: 0 <= m <= |input| ==> !MatchesAt(input, m, triggers)
    ensures ExtractName(input, triggers) ==
      if |SplitWs(input)| < 5 then Some(Trim(input)) else None
  {
  }

  /** An empty message gives the empty name, which is not looked up. */
  lemma ExtractFromEmpty(triggers: seq<string>)
    ensures ExtractName("", triggers) == Some("")
  {
    assert !MatchesAt("", 0, triggers);
  }

  // ---------------------------------------------------------------------
  // JSON values

  datatype Json =
    | JNull
    | JBool(b: bool)
    | JNum(x: real)
    | JStr(s: string)
    | JArr(items: seq<Json>)
    | JObj(fields: seq<(string, Json)>)

  /** JavaScript truthiness of a parsed value. */
  predicate Truthy(j: Json) {
    match j
    case JNull => false
    case JBool(b) => b
    case JNum(x) => x != 0.0
    case JStr(s) => s != ""
    case _ => true
  }

  /** `value[name]` on a parsed object: the last field of that name, as
      `JSON.parse` keeps it; any other value has no such field. */
  function FieldOf(j: Json, name: string): (r: Option<Json>)
    ensures r.Some? ==> j.JObj? && exists k :: 0 <= k < |j.fields| && j.fields[k] == (name, r.value)
    ensures r.None? ==> !j.JObj? || forall k :: 0 <= k < |j.fields| ==> j.fields[k].0 != name
  {
    if j.JObj? then LastField(j.fields, name) else None
  }

  function LastField(fields: seq<(string, Json)>, name: string): (r: Option<Json>)
    ensures r.Some? ==> exists k :: 0 <= k < |fields| && fields[k] == (name, r.value)
                         && forall k' :: k < k' < |fields| ==> fields[k'].0 != name
    ensures r.None? ==> forall k :: 0 <= k < |fields| ==> fields[k].0 != name
    decreases |fields|
  {
    if fields == [] then None
    else if fields[|fields| - 1].0 == name then Some(fields[|fields| - 1].1)
    else
      var r := LastField(fields[..|fields| - 1], name);
      assert forall k :: 0 <= k < |fields| - 1 ==> fields[..|fields| - 1][k] == fields[k];
      r
  }

  // ---------------------------------------------------------------------
  // findProductByName and the message it enhances

  /** The world the agent talks to.  `lookup(name)` is what the name tool
      returns, `None` when it throws; `parse` is `JSON.parse`, `None` when
      it throws; `reply(streaming, message)` is the model's answer, `None`
      when the call throws; `lens(image)` is the Google Lens result, `None`
      when it throws; `stringify` is `JSON.stringify`. */
  datatype Agent = Agent(
    hasNameTool: bool,
    lookup: string -> Option<string>,
    parse: string -> Option<Json>,
    reply: (bool, string) -> Option<string>,
    lens: string -> Option<Json>,
    stringify: Json -> string)

  /** `findProductByName`: every failure becomes `null`. */
  function FindProductByName(agent: Agent, name: string): (r: Option<Json>)
    ensures r.Some? <==> agent.hasNameTool && agent.lookup(name).Some?
                         && agent.parse(agent.lookup(name).value).Some?
    ensures r.Some? ==> r.value == agent.parse(agent.lookup(name).value).value
  {
    if !agent.hasNameTool then None
    else match agent.lookup(name)
      case None => None
      case Some(text) => agent.parse(text)
  }

  /** The lookup result is usable when it is truthy and has no truthy
      `error` field. */
  predicate Usable(info: Option<Json>) {
    info.Some? && Truthy(info.value)
    && !(FieldOf(info.value, "error").Some? && Truthy(FieldOf(info.value, "error").value))
  }

  const ProductInfoLabel := "\n\nProduct information: "
  const LensLabel := "\n\nGoogle Lens results: "

  /** The product card sent back when the model call fails. */
  datatype PriceRange = PriceRange(min: real, avg: real)
  datatype Card = Card(
    product_name: string,
    score: int,
    image_url: string,
    general_review: string,
    amazon_reviews_ref: seq<Json>,
    alternatives: seq<Json>,
    prices: PriceRange,
    product_id: string,
    category: string)

  const ErrorReview := "Sorry, I encountered an error while processing your request."

  function ErrorCard(review: string): (c: Card)
    ensures c.score == 0 && c.category == "error" && c.product_name == "Error"
    ensures c.amazon_reviews_ref == [] && c.alternatives == [] && c.image_url == "" && c.product_id == ""
    ensures c.prices == PriceRange(0.0, 0.0) && c.general_review == review
  {
    Card("Error", 0, "", review, [], [], PriceRange(0.0, 0.0), "", "error")
  }

  /** What `processMessage` returns: the model's content, or the error card. */
  datatype Reply = Content(text: string) | Failed(card: Card)

  /** `processMessage`: guess a name, look it up when there is one, add a
      usable result to the message, then ask the model. */
  method ProcessMessage(agent: Agent, message: string, streaming: bool) returns (reply: Reply)
    ensures var name := ExtractProductName(message);
      var info := if name.Some? && name.value != "" then FindProductByName(agent, name.value) else None;
      var sent := if Usable(info) then message + ProductInfoLabel + agent.stringify(info.value) else message;
      reply == (if agent.reply(streaming, sent).Some? then Content(agent.reply(streaming, sent).value)
                else Failed(ErrorCard(ErrorReview)))
  {
    var productName := ExtractProductName(message);
    var productInfo: Option<Json> := None;
    if productName.Some? && productName.value != "" {
      productInfo := FindProductByName(agent, productName.value);
    }
    var enhancedMessage := message;
    if Usable(productInfo) {
      enhancedMessage := message + ProductInfoLabel + agent.stringify(productInfo.value);
    }
    var result := agent.reply(streaming, enhancedMessage);
    if result.None? {
      return Failed(ErrorCard(ErrorReview));
    }
    reply := Content(result.value);
  }

  /** The message is left as it is unless the lookup gives a usable
      result, and only a failed model call gives the error card. */
  lemma MessageEnhancement(agent: Agent, message: string, info: Option<Json>)
    ensures var sent := if Usable(info) then message + ProductInfoLabel + agent.stringify(info.value) else message;
      && (sent != message <==> Usable(info))
      && (Usable(info) ==>
            sent[..|message|] == message && sent[|message|..] == ProductInfoLabel + agent.stringify(info.value))
  {
    var sent := if Usable(info) then message + ProductInfoLabel + agent.stringify(info.value) else message;
    if Usable(info) {
      assert |sent| > |message|;
    }
  }

  /** A lookup result with a truthy `error` field, or a falsy one, is never
      added to the message. */
  lemma ErrorResultIgnored(info: Json)
    requires !Truthy(info) || (FieldOf(info, "error").Some? && Truthy(FieldOf(info, "error").value))
    ensures !Usable(Some(info))
  {
  }

  /** `processMessageWithImage`: a Google Lens result is appended to the
      message; when Lens fails the message goes on unchanged. */
  function ImageMessage(agent: Agent, message: string, imageData: string): (sent: string)
    ensures imageData == "" || agent.lens(imageData).None? ==> sent == message
    ensures imageData != "" && agent.lens(imageData).Some? ==>
      sent == message + LensLabel + agent.stringify(agent.lens(imageData).value)
  {
    if imageData != "" && agent.lens(imageData).Some? then
      message + LensLabel + agent.stringify(agent.lens(imageData).value)
    else message
  }

  method ProcessMessageWithImage(agent: Agent, message: string, imageData: string, streaming: bool)
    returns (reply: Reply)
    ensures var sent := ImageMessage(agent, message, imageData);
      var name := ExtractProductName(sent);
      var info := if name.Some? && name.value != "" then FindProductByName(agent, name.value) else None;
      var enhanced := if Usable(info) then sent + ProductInfoLabel + agent.stringify(info.value) else sent;
      reply == (if agent.reply(streaming, enhanced).Some? then Content(agent.reply(streaming, enhanced).value)
                else Failed(ErrorCard(ErrorReview)))
  {
    var enhancedMessage := message;
    if imageData != "" {
      var lensResults := agent.lens(imageData);
      if lensResults.Some? {
        enhancedMessage := enhancedMessage + LensLabel + agent.stringify(lensResults.value);
      }
    }
    reply := ProcessMessage(agent, enhancedMessage, streaming);
  }
}
