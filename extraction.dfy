/** `isValidJSON` and `extractJSON`: the strict-parse gate and the ordered
    recovery chain (whole text, first fenced block, whole text as one brace
    block). `JSON.parse` itself is a parameter: any partial function from text
    to a value or a syntax-error message. */
module Extraction {

  import opened Wrappers
  import opened Text
  import opened JsonValues

  /** `JSON.parse`: the parsed value, or the message of the error it throws. */
  type Parser = string -> Result<JsonValue, string>

  const Fence := "```"
  const JsonTag := "json"
  const ExtractErrorPrefix := "Failed to extract JSON: "
  const NoJsonMessage := "No valid JSON found in the response"

  /** `isValidJSON(text)`: the strict parse succeeds. */
  predicate IsValidJSON(parse: Parser, text: string) {
    parse(text).Ok?
  }

  /** The optional `json` language tag right after an opening fence. */
  function StripTag(s: string): (r: string)
    ensures |r| <= |s| && r == s[|s| - |r|..]
    ensures JsonTag <= s ==> r == s[4..]
    ensures !(JsonTag <= s) ==> r == s
  {
    if |s| >= 4 && s[..4] == JsonTag then s[4..] else s
  }

  /** The first fence of `text` opens at `p` and the first fence after it closes at `e`. */
  predicate FencedAt(text: string, p: int, e: int) {
    0 <= p && p + 3 <= e
    && OccursAt(text, Fence, p) && OccursAt(text, Fence, e)
    && (forall j :: 0 <= j < p ==> !OccursAt(text, Fence, j))
    && (forall j :: p + 3 <= j < e ==> !OccursAt(text, Fence, j))
  }

  /** A fenced pair is exactly what the two `indexOf` searches find. */
  lemma FencedAtFound(text: string, p: int, e: int)
    requires FencedAt(text, p, e)
    ensures IndexOf(text, Fence, 0) == Some(p) && IndexOf(text, Fence, p + 3) == Some(e)
  {
    var first := IndexOf(text, Fence, 0);
    assert first.Some? && !(first.value < p) && !(p < first.value);
    var close := IndexOf(text, Fence, p + 3);
    assert close.Some? && !(close.value < e) && !(e < close.value);
  }

  /** Group 1 of the first match of /```(?:json)?\s*([\s\S]*?)\s*```/ in `text`:
      the text between the first fence and the next one, without a leading
      `json` tag and without white space at either end. */
  function FenceCapture(text: string): Option<string> {
    match IndexOf(text, Fence, 0)
    case None => None
    case Some(p) =>
      match IndexOf(text, Fence, p + 3)
      case None => None
      case Some(e) => Some(Trim(StripTag(text[p + 3..e])))
  }

  /** Every fenced pair determines the capture. */
  lemma CaptureOfEveryPair(text: string)
    ensures forall p, e :: FencedAt(text, p, e) ==>
              FenceCapture(text) == Some(Trim(StripTag(text[p + 3..e])))
  {
    forall p, e | FencedAt(text, p, e)
      ensures FenceCapture(text) == Some(Trim(StripTag(text[p + 3..e])))
    {
      FencedAtFound(text, p, e);
    }
  }

  /** A capture comes from a fenced pair, and is trimmed and fence-free. */
  lemma CaptureHasPair(text: string) returns (p: nat, e: nat)
    requires FenceCapture(text).Some?
    ensures FencedAt(text, p, e) && FenceCapture(text) == Some(Trim(StripTag(text[p + 3..e])))
    ensures Trimmed(FenceCapture(text).value) && !Contains(FenceCapture(text).value, Fence)
  {
    var first := IndexOf(text, Fence, 0);
    p := first.value;
    var close := IndexOf(text, Fence, p + 3);
    e := close.value;
    assert FenceCapture(text) == Some(Trim(StripTag(text[p + 3..e])));
    assert FencedAt(text, p, e);
    CaptureHasNoFence(text, p, e);
  }

  /** The capture is taken from the one fenced pair, exists exactly when
      there is one, and is trimmed and fence-free. */
  lemma FenceCaptureSpec(text: string)
    ensures FenceCapture(text).Some? <==> exists p, e :: FencedAt(text, p, e)
    ensures forall p, e :: FencedAt(text, p, e) ==>
              FenceCapture(text) == Some(Trim(StripTag(text[p + 3..e])))
    ensures FenceCapture(text).Some? ==>
              Trimmed(FenceCapture(text).value) && !Contains(FenceCapture(text).value, Fence)
  {
    CaptureOfEveryPair(text);
    if FenceCapture(text).Some? {
      var p, e := CaptureHasPair(text);
    }
  }

  /** The capture lies strictly between the two fences, so it contains none. */
  lemma CaptureHasNoFence(text: string, p: int, e: int)
    requires FencedAt(text, p, e)
    ensures !Contains(Trim(StripTag(text[p + 3..e])), Fence)
  {
    var interior := text[p + 3..e];
    NoOccurrenceInSlice(text, Fence, p + 3, e);
    var tagless := StripTag(interior);
    NoOccurrenceInSlice(interior, Fence, |interior| - |tagless|, |interior|);
    assert tagless == interior[|interior| - |tagless|..|interior|];
    NoOccurrenceInSlice(tagless, Fence, TrimLo(tagless), TrimHi(tagless));
  }

  /** Group 1 of /^\s*({[\s\S]*})\s*$/: the whole text, once trimmed, when it
      opens with `{` and closes with a distinct `}`. */
  function BraceCapture(text: string): (r: Option<string>)
    ensures r.Some? ==> r.value == Trim(text)
    ensures r.Some? <==> IsBraceBlock(Trim(text))
  {
    var t := Trim(text);
    if |t| >= 2 && t[0] == '{' && t[|t| - 1] == '}' then Some(t) else None
  }

  /** At least two characters, the first `{` and the last `}`. */
  predicate IsBraceBlock(t: string) {
    |t| >= 2 && t[0] == '{' && t[|t| - 1] == '}'
  }

  /** The non-empty capture the fence strategy parses, if there is one. */
  predicate HasFencedBlock(text: string) {
    FenceCapture(text).Some? && FenceCapture(text).value != ""
  }

  /** A parse failure inside the recovery strategies, rethrown with the fixed prefix. */
  function Rethrow(result: Result<JsonValue, string>): (r: Result<JsonValue, string>)
    ensures result.Ok? ==> r == result
    ensures result.Err? ==> r == Err(ExtractErrorPrefix + result.error)
  {
    if result.Ok? then result else Err(ExtractErrorPrefix + result.error)
  }

  /** `extractJSON(text)`. */
  function ExtractJSON(parse: Parser, text: string): (r: Result<JsonValue, string>)
    // strategy 1: a text that parses is returned as parsed
    ensures IsValidJSON(parse, text) ==> r == parse(text)
    // strategy 2: a non-empty fenced block decides the outcome, success or failure
    ensures !IsValidJSON(parse, text) && HasFencedBlock(text) ==>
              r == Rethrow(parse(FenceCapture(text).value))
    // strategy 3 is reached only without such a block, and needs a brace-delimited text
    ensures !IsValidJSON(parse, text) && !HasFencedBlock(text) && BraceCapture(text).None? ==>
              r == Err(ExtractErrorPrefix + NoJsonMessage)
    ensures !IsValidJSON(parse, text) && !HasFencedBlock(text) && BraceCapture(text).Some? ==>
              r == Rethrow(parse(Trim(text)))
    // every failure carries the prefix; every success is what the parser returned for some candidate
    ensures r.Err? ==> ExtractErrorPrefix <= r.error
    ensures r.Ok? ==> r == parse(text) || r == parse(Trim(text))
                      || (FenceCapture(text).Some? && r == parse(FenceCapture(text).value))
  {
    var direct := parse(text);
    if direct.Ok? then direct
    else
      var fenced := FenceCapture(text);
      if fenced.Some? && fenced.value != "" then Rethrow(parse(fenced.value))
      else
        var braced := BraceCapture(text);
        if braced.Some? then Rethrow(parse(braced.value))
        else Err(ExtractErrorPrefix + NoJsonMessage)
  }

  /** A bare object is returned by the first strategy. */
  lemma BareObjectExample(parse: Parser, v: JsonValue)
    requires parse("{\"a\":1}") == Ok(v)
    ensures ExtractJSON(parse, "{\"a\":1}") == Ok(v)
  {
  }

  /** The opening fence of `"```json\n" + body + "\n```"` and its closing fence. */
  lemma OneFencedBlock(body: string)
    requires '`' !in body
    ensures FencedAt("```json\n" + body + "\n```", 0, |body| + 9)
    ensures ("```json\n" + body + "\n```")[3..|body| + 9] == "json\n" + body + "\n"
  {
    var text := "```json\n" + body + "\n```";
    var e := |body| + 9;
    assert text[..3] == Fence;
    assert text[e..] == Fence;
    assert text[3..e] == "json\n" + body + "\n";
    AbsentCharNoOccurrence(text, Fence, 3, e);
  }

  /** The tag and the line breaks around a trimmed body are cut away. */
  lemma TaggedBodyTrimmed(body: string)
    requires body != [] && Trimmed(body)
    ensures Trim(StripTag("json\n" + body + "\n")) == body
  {
    var inner := "\n" + body + "\n";
    assert StripTag("json\n" + body + "\n") == inner;
    assert IsWhitespace(inner[0]) && inner[1] == body[0];
    assert TrimStartIndex(inner, 1) == 1;
    assert TrimLo(inner) == 1;
    assert IsWhitespace(inner[|inner| - 1]) && inner[|inner| - 2] == body[|body| - 1];
    assert TrimEndIndex(inner, 1, |inner| - 1) == |inner| - 1;
    assert TrimHi(inner) == |inner| - 1;
    assert inner[1..|inner| - 1] == body;
  }

  /** A reply that is one ```json block around a trimmed body without
      backticks, and that fails the direct parse, is unwrapped by the second strategy. */
  lemma FencedBodyUnwrapped(parse: Parser, body: string)
    requires body != [] && Trimmed(body) && '`' !in body
    requires !IsValidJSON(parse, "```json\n" + body + "\n```")
    ensures ExtractJSON(parse, "```json\n" + body + "\n```") == Rethrow(parse(body))
  {
    var text := "```json\n" + body + "\n```";
    OneFencedBlock(body);
    TaggedBodyTrimmed(body);
    FenceCaptureSpec(text);
    assert FenceCapture(text) == Some(body);
  }

  /** Without a non-empty fenced block and without a brace-delimited trimmed
      text, a reply that fails the direct parse fails every strategy. */
  lemma NoFenceNoBraceFails(parse: Parser, text: string)
    requires !IsValidJSON(parse, text) && !HasFencedBlock(text) && !IsBraceBlock(Trim(text))
    ensures ExtractJSON(parse, text) == Err(ExtractErrorPrefix + NoJsonMessage)
  {
  }

  /** A reply without a backtick has no fenced block. */
  lemma NoBacktickNoFence(text: string)
    requires '`' !in text
    ensures !HasFencedBlock(text)
  {
    assert text[0..|text|] == text;
    AbsentCharNoOccurrence(text, Fence, 0, |text|);
    FenceCaptureSpec(text);
  }

  /** Prose before an object defeats every strategy: the trimmed text must be the object. */
  lemma ProseBeforeObjectExample(parse: Parser)
    requires !IsValidJSON(parse, "Sure! {\"a\":1}")
    ensures ExtractJSON(parse, "Sure! {\"a\":1}") == Err(ExtractErrorPrefix + NoJsonMessage)
  {
    var text := "Sure! {\"a\":1}";
    assert TrimLo(text) == 0;
    assert Trim(text)[0] == 'S';
    NoBacktickNoFence(text);
    NoFenceNoBraceFails(parse, text);
  }
}
