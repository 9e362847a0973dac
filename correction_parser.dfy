/** `parse_correction_json`: pulling the JSON correction out of the vision model's reply.
    The reply may wrap the JSON in a markdown block opened by "```json" and closed by
    "```"; the interior of the first such block is decoded, or the whole reply when
    there is no complete block. The decoder (`json.loads`) is a parameter: it returns
    `None` where Python raises `json.JSONDecodeError`.

    Two variants exist. The one in adk2.py searches for the closing fence only after
    an opening fence was found and then insists on a dict with the keys `diagnosis`
    and `corrected_data`; the one in adk.py searches unconditionally and returns any
    decoded value. */
module CorrectionParser {
  import opened Wrappers
  import opened Exceptions
  import opened JsonValue
  import opened PyText

  const Open: string := "```json"
  const Close: string := "```"

  /** `text.find("```json")`. */
  function OpenAt(text: string): int {
    Find(text, Open, 0)
  }

  /** adk2.py: the closing fence is looked for only after an opening fence. */
  function CloseAtGuarded(text: string): int {
    var s := OpenAt(text);
    if s != -1 then Find(text, Close, s + 1) else -1
  }

  /** adk.py: the closing fence is looked for from `start + 1` even when `start` is -1. */
  function CloseAtUnguarded(text: string): int {
    Find(text, Close, OpenAt(text) + 1)
  }

  /** No closing fence can start inside an opening fence after its first character:
      positions 1 to 6 of "```json" are never the start of "```". */
  lemma NoCloseInsideOpen(text: string, s: int)
    requires MatchAt(text, Open, s)
    ensures forall j :: s < j < s + |Open| ==> !MatchAt(text, Close, j)
  {
    forall j | s < j < s + |Open| ensures !MatchAt(text, Close, j) {
      // A letter of "json" sits where the candidate closing fence would need a backtick.
      var k := if j <= s + 2 then j + 2 else j;
      assert text[s..s + |Open|][k - s] == text[k];
      assert text[k] != '`';
    }
  }

  /** A closing fence found after the start of an opening fence begins at or after the
      end of that opening fence, so `text[start + 7:end]` is a well-formed slice. */
  lemma CloseFollowsOpen(text: string, s: int, e: int)
    requires MatchAt(text, Open, s) && MatchAt(text, Close, e) && s < e
    ensures s + |Open| <= e
  {
    NoCloseInsideOpen(text, s);
  }

  /** adk2.py: the text handed to the decoder, stripped of surrounding whitespace. */
  function JsonTextGuarded(text: string): (r: string)
    ensures |r| <= |text|
    ensures r != [] ==> !IsSpace(r[0]) && !IsSpace(r[|r| - 1])
    ensures OpenAt(text) == -1 || CloseAtGuarded(text) == -1 ==> r == Strip(text)
  {
    var s := OpenAt(text);
    var e := CloseAtGuarded(text);
    if s != -1 && e != -1 then
      CloseFollowsOpen(text, s, e);
      Strip(text[s + |Open|..e])
    else
      Strip(text)
  }

  /** adk.py: the text handed to the decoder, stripped of surrounding whitespace. */
  function JsonTextUnguarded(text: string): (r: string)
    ensures |r| <= |text|
    ensures r != [] ==> !IsSpace(r[0]) && !IsSpace(r[|r| - 1])
    ensures OpenAt(text) == -1 || CloseAtUnguarded(text) == -1 ==> r == Strip(text)
  {
    var s := OpenAt(text);
    var e := CloseAtUnguarded(text);
    if s != -1 && e != -1 then
      CloseFollowsOpen(text, s, e);
      Strip(text[s + |Open|..e])
    else
      Strip(text)
  }

  /** The unguarded search of adk.py selects the same JSON text as the guarded one of
      adk2.py: a closing fence found with no opening fence is never used. */
  lemma FencesAgree(text: string)
    ensures JsonTextUnguarded(text) == JsonTextGuarded(text)
    ensures OpenAt(text) != -1 ==> CloseAtUnguarded(text) == CloseAtGuarded(text)
  {
  }

  /** The free text in front of an opening fence holds no earlier "```json" (one
      that would end inside that fence counts too). */
  predicate NoOpenBefore(pre: string) {
    forall j :: 0 <= j < |pre| ==> !MatchAt(pre + Open, Open, j)
  }

  /** A block body with no "```" starting inside it (one that would end inside the
      closing fence counts too). Inline backticks are allowed. */
  predicate NoCloseWithin(body: string) {
    forall j :: 0 <= j < |body| ==> !MatchAt(body + Close, Close, j)
  }

  /** The first opening fence of a reply is the one right after free text with no
      earlier opening fence. */
  lemma OpenAfterPlainText(pre: string, rest: string)
    requires NoOpenBefore(pre)
    ensures OpenAt(pre + Open + rest) == |pre|
  {
    var text := pre + Open + rest;
    var s := |pre|;
    assert text[s..s + |Open|] == Open;
    assert MatchAt(text, Open, s);
    forall j | 0 <= j < s ensures !MatchAt(text, Open, j) {
      assert text[j..j + |Open|] == (pre + Open)[j..j + |Open|];
      assert !MatchAt(pre + Open, Open, j);
    }
  }

  /** After an opening fence followed by a body with no "```" inside it, the first
      closing fence is the one right after the body. */
  lemma CloseAfterPlainBody(pre: string, body: string, post: string)
    requires NoCloseWithin(body)
    ensures Find(pre + Open + body + Close + post, Close, |pre| + 1) == |pre| + |Open| + |body|
  {
    var text := pre + Open + body + Close + post;
    var s := |pre|;
    var e := |pre| + |Open| + |body|;
    assert text[s..s + |Open|] == Open;
    NoCloseInsideOpen(text, s);
    forall j | s + |Open| <= j < e ensures !MatchAt(text, Close, j) {
      var o := j - s - |Open|;
      assert text[j..j + |Close|] == (body + Close)[o..o + |Close|];
      assert !MatchAt(body + Close, Close, o);
    }
    assert text[e..e + |Close|] == Close;
    assert MatchAt(text, Close, e);
  }

  /** A reply consisting of free text, a "```json" block and more text yields exactly
      the stripped interior of the block, whatever follows the block. */
  lemma FencedReply(pre: string, body: string, post: string)
    requires NoOpenBefore(pre) && NoCloseWithin(body)
    ensures JsonTextGuarded(pre + Open + body + Close + post) == Strip(body)
  {
    var text := pre + Open + body + Close + post;
    var rest := body + Close + post;
    assert text == pre + Open + rest;
    OpenAfterPlainText(pre, rest);
    CloseAfterPlainBody(pre, body, post);
    var s, e := |pre|, |pre| + |Open| + |body|;
    assert OpenAt(text) == s && CloseAtGuarded(text) == e;
    assert text[s + |Open|..e] == body;
  }

  /** A reply without an opening fence is decoded whole, even if it holds a "```". */
  lemma UnfencedReply(text: string)
    requires forall j :: !MatchAt(text, Open, j)
    ensures JsonTextGuarded(text) == Strip(text) && JsonTextUnguarded(text) == Strip(text)
  {
  }

  /** A reply with no backtick and no surrounding whitespace is decoded as it is. */
  lemma PlainReply(text: string)
    requires '`' !in text
    requires text != [] ==> !IsSpace(text[0]) && !IsSpace(text[|text| - 1])
    ensures JsonTextGuarded(text) == text
  {
    forall j | 0 <= j ensures !MatchAt(text, Open, j) {
      if j + |Open| <= |text| { assert text[j..j + |Open|][0] == text[j]; }
    }
    assert OpenAt(text) == -1;
    assert JsonTextGuarded(text) == Strip(text);
    StripPadded([], text, []);
    assert [] + text + [] == text;
  }

  /** An opening fence with no closing fence after it falls back to the whole reply. */
  lemma UnclosedReply(pre: string, rest: string)
    requires NoOpenBefore(pre)
    requires forall j :: !MatchAt(rest, Close, j)
    ensures JsonTextGuarded(pre + Open + rest) == Strip(pre + Open + rest)
  {
    var text := pre + Open + rest;
    var s := |pre|;
    OpenAfterPlainText(pre, rest);
    assert text[s..s + |Open|] == Open;
    NoCloseInsideOpen(text, s);
    forall j | s + |Open| <= j ensures !MatchAt(text, Close, j) {
      var o := j - s - |Open|;
      if j + |Close| <= |text| {
        assert text[j..j + |Close|] == rest[o..o + |Close|];
        assert !MatchAt(rest, Close, o);
      }
    }
    assert CloseAtGuarded(text) == -1;
  }

  /** What the correction must be: a dict carrying both required keys. */
  predicate IsCorrection(v: Json) {
    v.Object? && "diagnosis" in v.fields && "corrected_data" in v.fields
  }

  /** adk2.py's validation as written, applied to what the decoder gave: `Success(None)`
      on a decoding failure or a missing key, `Success(Some(obj))` when both key tests
      pass, and the TypeError that Python's `in` raises when the decoded value is not a
      container. */
  function CheckAsWritten(decoded: Option<Json>): (r: Result<Option<Json>, PyError>)
    ensures decoded.None? ==> r == Success(None)
    ensures r.Success? && r.value.Some? ==> r.value == decoded
    ensures decoded.Some? && decoded.value.Object? ==> r.Success? && (r.value.Some? <==> IsCorrection(decoded.value))
    ensures r.Failure? <==> decoded.Some? && (decoded.value.Null? || decoded.value.Bool? || decoded.value.Number? || decoded.value.Float?)
  {
    match decoded
    case None => Success(None)
    case Some(obj) =>
      match In("diagnosis", obj)
      case Failure(e) => Failure(e)
      case Success(hasDiagnosis) =>
        if !hasDiagnosis then Success(None)
        else
          match In("corrected_data", obj)
          case Failure(e) => Failure(e)
          case Success(hasCorrection) => if hasCorrection then Success(Some(obj)) else Success(None)
  }

  /** adk2.py's validation as evidently intended ("returns a dict or None"): the decoded
      value when it is a dict with both keys, and `None` in every other case. */
  function CheckCorrection(decoded: Option<Json>): (r: Option<Json>)
    ensures r.Some? <==> decoded.Some? && IsCorrection(decoded.value)
    ensures r.Some? ==> r == decoded
  {
    match decoded
    case Some(obj) => if IsCorrection(obj) then Some(obj) else None
    case None => None
  }

  /** adk2.py's parser as written: None when decoding fails or a key is missing, the
      decoded value when both key tests pass, and TypeError out of the parser when the
      decoded value is not a container. */
  function ParseCorrectionAsWritten(text: string, decode: string -> Option<Json>): (r: Result<Option<Json>, PyError>)
    ensures var d := decode(JsonTextGuarded(text));
      && (d.None? ==> r == Success(None))
      && (r.Success? && r.value.Some? ==> r.value == d)
      && (r.Failure? <==> d.Some? && !(d.value.Object? || d.value.Array? || d.value.Str?))
  {
    CheckAsWritten(decode(JsonTextGuarded(text)))
  }

  /** adk2.py's parser as evidently intended: the decoded value exactly when it is a
      dict with both keys, None otherwise. */
  function ParseCorrection(text: string, decode: string -> Option<Json>): (r: Option<Json>)
    ensures var d := decode(JsonTextGuarded(text));
      && (r.Some? <==> d.Some? && IsCorrection(d.value))
      && (r.Some? ==> r == d)
  {
    CheckCorrection(decode(JsonTextGuarded(text)))
  }

  /** On a decoding failure or a decoded dict, the validation as written and the
      corrected one agree. */
  lemma AsWrittenAgreesOnDicts(decoded: Option<Json>)
    requires decoded.None? || decoded.value.Object?
    ensures CheckAsWritten(decoded) == Success(CheckCorrection(decoded))
  {
  }

  /** A reply that reaches the decoder as it is: both parsers validate what the
      decoder makes of the whole reply. */
  lemma PlainReplyParsed(text: string, decode: string -> Option<Json>)
    requires '`' !in text
    requires text != [] ==> !IsSpace(text[0]) && !IsSpace(text[|text| - 1])
    ensures ParseCorrectionAsWritten(text, decode) == CheckAsWritten(decode(text))
    ensures ParseCorrection(text, decode) == CheckCorrection(decode(text))
  {
    PlainReply(text);
  }

  /** A reply that is a bare JSON number makes the parser as written raise TypeError
      instead of returning None. */
  lemma BareNumberRaises(decode: string -> Option<Json>)
    requires decode("42") == Some(Number(42))
    ensures ParseCorrectionAsWritten("42", decode) == Failure(TypeError("int"))
    ensures ParseCorrection("42", decode) == None
  {
    PlainReply("42");
    assert CheckAsWritten(Some(Number(42))) == Failure(TypeError("int"));
  }

  /** A reply that is a JSON list of the two key names. */
  const KeyListReply: string := "[\"diagnosis\", \"corrected_data\"]"

  /** A reply that is a JSON string holding both key names. */
  const KeyStringReply: string := "\"diagnosis corrected_data\""

  /** What `json.loads` makes of `KeyStringReply`. */
  const KeyString: string := "diagnosis corrected_data"

  /** A reply that is a JSON list holding the two key names is returned by the parser
      as written although it is not a dict. */
  lemma KeyListAccepted(decode: string -> Option<Json>)
    requires decode(KeyListReply) == Some(Array([Str("diagnosis"), Str("corrected_data")]))
    ensures ParseCorrectionAsWritten(KeyListReply, decode) == Success(Some(Array([Str("diagnosis"), Str("corrected_data")])))
    ensures ParseCorrection(KeyListReply, decode) == None
  {
    var reply := KeyListReply;
    assert '`' !in reply;
    assert !IsSpace(reply[0]) && !IsSpace(reply[|reply| - 1]);
    PlainReplyParsed(reply, decode);
  }

  /** A reply that is a JSON string containing both key names is returned by the
      parser as written too: `in` on a string tests for a substring. */
  lemma KeyStringAccepted(decode: string -> Option<Json>)
    requires decode(KeyStringReply) == Some(Str(KeyString))
    ensures ParseCorrectionAsWritten(KeyStringReply, decode) == Success(Some(Str(KeyString)))
    ensures ParseCorrection(KeyStringReply, decode) == None
  {
    var reply := KeyStringReply;
    assert '`' !in reply;
    assert !IsSpace(reply[0]) && !IsSpace(reply[|reply| - 1]);
    PlainReplyParsed(reply, decode);
    KeyStringHoldsKeys();
  }

  /** Both key names are substrings of `KeyString`. */
  lemma KeyStringHoldsKeys()
    ensures In("diagnosis", Str(KeyString)) == Success(true)
    ensures In("corrected_data", Str(KeyString)) == Success(true)
  {
    var s := KeyString;
    assert s[0..9] == "diagnosis";
    assert MatchAt(s, "diagnosis", 0);
    assert s[10..24] == "corrected_data";
    assert MatchAt(s, "corrected_data", 10);
  }

  /** adk.py's parser: whatever the decoder makes of the extracted text, with no key
      validation; `None` only when decoding fails. */
  function ParseCorrectionUnchecked(text: string, decode: string -> Option<Json>): (r: Option<Json>)
    ensures r == decode(JsonTextGuarded(text))
  {
    FencesAgree(text);
    decode(JsonTextUnguarded(text))
  }

  /** adk.py's parser returns at least what the corrected adk2.py parser returns. */
  lemma UncheckedReturnsEveryDecodedValue(text: string, decode: string -> Option<Json>)
    ensures ParseCorrection(text, decode).Some? ==> ParseCorrectionUnchecked(text, decode) == ParseCorrection(text, decode)
  {
    FencesAgree(text);
  }
}
