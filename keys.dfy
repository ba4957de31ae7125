/** Document-key sanitisation: the server's `sanitizeKey` and the notebook's
    `sanitize_key`.  Both map an arbitrary string onto the key alphabet of the
    database (`[A-Za-z0-9_-]`) and make sure a key never starts with a digit
    or an underscore. */
module Keys {
  import opened Common

  /** The character class `[a-zA-Z0-9_\-]`. */
  predicate IsKeyChar(c: char) { IsAsciiLetter(c) || IsDigit(c) || c == '_' || c == '-' }

  /** A string `sanitizeKey` leaves alone: non-empty, drawn from the key
      alphabet, and not starting with a digit or `_`. */
  predicate IsValidKey(s: string) {
    |s| > 0 && (forall i :: 0 <= i < |s| ==> IsKeyChar(s[i])) && !IsDigit(s[0]) && s[0] != '_'
  }

  /** `re.sub(r'[^a-zA-Z0-9_\-]', '_', s)`: one `_` per character outside the
      class, as Python strings are sequences of characters. */
  function ReplaceDisallowed(s: string): (r: string)
    ensures |r| == |s|
    ensures forall i :: 0 <= i < |s| ==> IsKeyChar(r[i])
    ensures forall i :: 0 <= i < |s| ==> (IsKeyChar(s[i]) <==> r[i] == s[i])
  {
    seq(|s|, i requires 0 <= i < |s| => if IsKeyChar(s[i]) then s[i] else '_')
  }

  /** `s.replace(old, new)` for single characters (Python `str.replace`). */
  function ReplaceChar(s: string, from: char, to: char): (r: string)
    ensures |r| == |s|
    ensures forall i :: 0 <= i < |s| ==> r[i] == (if s[i] == from then to else s[i])
  {
    seq(|s|, i requires 0 <= i < |s| => if s[i] == from then to else s[i])
  }

  /** A character the server holds as two UTF-16 code units. */
  predicate IsAstral(c: char) { c > '\U{FFFF}' }

  /** A string with no character beyond U+FFFF, so that its UTF-16 code
      units are its characters. */
  predicate IsBmp(s: string) { forall i :: 0 <= i < |s| ==> !IsAstral(s[i]) }

  /** The length of `s` as a JavaScript string, in UTF-16 code units. */
  function Utf16Length(s: string): nat
    decreases |s|
  {
    if s == "" then 0 else (if IsAstral(s[0]) then 2 else 1) + Utf16Length(s[1..])
  }

  /** What the server's pattern makes of one character: the pattern has no
      `u` flag, so it matches code units, and a character beyond U+FFFF
      becomes two `_`. */
  function JsReplacement(c: char): string {
    if IsKeyChar(c) then [c] else if IsAstral(c) then "__" else "_"
  }

  /** `s.replace(/[^a-zA-Z0-9_\-]/g, "_")` on a JavaScript string. */
  function JsReplaceDisallowed(s: string): (r: string)
    ensures |r| == Utf16Length(s)
    ensures forall i :: 0 <= i < |r| ==> IsKeyChar(r[i])
    ensures s != "" ==> r[0] == JsReplacement(s[0])[0]
    decreases |s|
  {
    if s == "" then "" else JsReplacement(s[0]) + JsReplaceDisallowed(s[1..])
  }

  /** On a string without characters beyond U+FFFF the server's and the
      notebook's replacement agree. */
  lemma {:induction false} JsReplaceDisallowedBmp(s: string)
    requires IsBmp(s)
    ensures JsReplaceDisallowed(s) == ReplaceDisallowed(s)
    ensures Utf16Length(s) == |s|
    decreases |s|
  {
    if s != "" {
      JsReplaceDisallowedBmp(s[1..]);
      assert ReplaceDisallowed(s) == JsReplacement(s[0]) + ReplaceDisallowed(s[1..]);
    }
  }

  /** A string of key characters has no character beyond U+FFFF. */
  lemma KeyCharsAreBmp(s: string)
    requires forall i :: 0 <= i < |s| ==> IsKeyChar(s[i])
    ensures IsBmp(s)
  {
  }

  /** The server's `sanitizeKey`.  The empty string is the only falsy string. */
  function SanitizeKey(key: string): (r: string)
    ensures key == "" <==> r == ""
    ensures key != "" ==> IsValidKey(r)
    ensures |r| == Utf16Length(key) || |r| == Utf16Length(key) + 1
  {
    if key == "" then ""
    else
      var k := JsReplaceDisallowed(key);
      if k == "" || IsDigit(k[0]) || k[0] == '_' then "a" + k else k
  }

  /** Sanitising rewrites each character by `JsReplacement` and prepends
      `a` exactly when the first character is a digit, `_` or outside the key
      alphabet; on a string without characters beyond U+FFFF, allowed
      characters stay in place (shifted by the `a`, if any) and each other
      character becomes exactly one `_`. */
  lemma SanitizeKeyPositions(key: string)
    requires key != ""
    ensures var r := SanitizeKey(key);
      var p := if IsDigit(key[0]) || key[0] == '_' || !IsKeyChar(key[0]) then 1 else 0;
      && (p == 1 ==> r[0] == 'a')
      && r[p..] == JsReplaceDisallowed(key)
      && (IsBmp(key) ==>
            && |r| == |key| + p
            && forall i :: 0 <= i < |key| ==> r[i + p] == (if IsKeyChar(key[i]) then key[i] else '_'))
  {
    var k := JsReplaceDisallowed(key);
    var r := SanitizeKey(key);
    var p := if IsDigit(key[0]) || key[0] == '_' || !IsKeyChar(key[0]) then 1 else 0;
    assert k[0] == JsReplacement(key[0])[0];
    if p == 1 {
      assert r == "a" + k;
    } else {
      assert r == k;
    }
    assert r[p..] == k;
    if IsBmp(key) {
      JsReplaceDisallowedBmp(key);
    }
  }

  /** The keys `sanitizeKey` returns unchanged are exactly "" and the valid keys. */
  lemma SanitizeKeyFixpoint(key: string)
    ensures SanitizeKey(key) == key <==> key == "" || IsValidKey(key)
  {
    if key != "" {
      if IsValidKey(key) {
        KeyCharsAreBmp(key);
        JsReplaceDisallowedBmp(key);
        assert ReplaceDisallowed(key) == key;
      }
      if SanitizeKey(key) == key {
        assert IsValidKey(SanitizeKey(key));
      }
    }
  }

  /** `sanitizeKey(sanitizeKey(k)) == sanitizeKey(k)`. */
  lemma SanitizeKeyIdempotent(key: string)
    ensures SanitizeKey(SanitizeKey(key)) == SanitizeKey(key)
  {
    SanitizeKeyFixpoint(SanitizeKey(key));
  }

  /** The notebook's `sanitize_key(key, allow_spaces)` on a string argument.
      The explicit replacements of `/`, `\`, `.` and (unless allowed) space
      come first; the regular expression then replaces everything else outside
      the key alphabet.  The regular expression leaves only ASCII characters,
      so `isdigit()` on the first of them is the ASCII digit test. */
  function PySanitizeKey(key: string, allowSpaces: bool): (r: string)
    ensures key == "" <==> r == ""
    ensures key != "" ==> IsValidKey(r)
  {
    if key == "" then ""
    else
      var k1 := ReplaceChar(ReplaceChar(ReplaceChar(key, '/', '_'), '\\', '_'), '.', '_');
      var k2 := if !allowSpaces then ReplaceChar(k1, ' ', '_') else k1;
      var k3 := ReplaceDisallowed(k2);
      if k3 == "" || IsDigit(k3[0]) || k3[0] == '_' then "a" + k3 else k3
  }

  /** The notebook and the server sanitise every string without characters
      beyond U+FFFF identically, and the `allow_spaces` flag has no
      observable effect on any string: a space is outside the key alphabet
      and the regular expression turns it into `_` anyway. */
  lemma PySanitizeKeyAgrees(key: string, allowSpaces: bool)
    ensures IsBmp(key) ==> PySanitizeKey(key, allowSpaces) == SanitizeKey(key)
    ensures PySanitizeKey(key, true) == PySanitizeKey(key, false)
  {
    if key != "" {
      var k1 := ReplaceChar(ReplaceChar(ReplaceChar(key, '/', '_'), '\\', '_'), '.', '_');
      var k2 := if !allowSpaces then ReplaceChar(k1, ' ', '_') else k1;
      assert ReplaceDisallowed(k2) == ReplaceDisallowed(key);
      var k2' := if allowSpaces then ReplaceChar(k1, ' ', '_') else k1;
      assert ReplaceDisallowed(k2') == ReplaceDisallowed(key);
      if IsBmp(key) {
        JsReplaceDisallowedBmp(key);
      }
    }
  }

  /** A character beyond U+FFFF is where the two differ: the server writes
      one `_` per UTF-16 code unit, the notebook one per character. */
  lemma AstralKeyDiffers()
    ensures SanitizeKey("\U{1F600}") == "a__"
    ensures PySanitizeKey("\U{1F600}", false) == "a_"
  {
    assert JsReplaceDisallowed("\U{1F600}") == "__";
    assert ReplaceDisallowed("\U{1F600}") == "_";
  }
}
