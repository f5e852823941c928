/** The local validators of src/utils.ts: the absolute-URL test, the emptiness
    and own-key tests on objects, the quantity validator and the empty-input
    rule of the Base64 helper. */
module Utils {
  import opened Outcomes
  import opened Errors
  import JsValues

  // ---------------------------------------------------------------------------
  // isAbsoluteURL: the regular expression `^(?:[a-z]+:)?//` with the `i` flag
  // ---------------------------------------------------------------------------

  /** An ASCII letter in either case (the expression ignores case). */
  predicate IsAsciiLetter(c: char) {
    'a' <= c <= 'z' || 'A' <= c <= 'Z'
  }

  predicate StartsWith(s: string, prefix: string) {
    |prefix| <= |s| && s[..|prefix|] == prefix
  }

  /** The length of the longest run of ASCII letters at the start of `s`. */
  function LeadingLetters(s: string): (n: nat)
    ensures n <= |s|
    ensures forall i :: 0 <= i < n ==> IsAsciiLetter(s[i])
    ensures n < |s| ==> !IsAsciiLetter(s[n])
  {
    if |s| > 0 && IsAsciiLetter(s[0]) then 1 + LeadingLetters(s[1..]) else 0
  }

  /** The expression matched left to right: the letter run `[a-z]+` can only
      end where the letters end, so the optional group matches iff that run is
      non-empty and is followed by `:`, and the two slashes come after it. */
  predicate IsAbsoluteURL(url: string) {
    var n := LeadingLetters(url);
    StartsWith(url, "//") || (n > 0 && StartsWith(url[n..], "://"))
  }

  /** The expression read declaratively: either two slashes at the start, or
      some non-empty prefix of letters followed by `://`. */
  ghost predicate SchemePattern(url: string) {
    || StartsWith(url, "//")
    || exists k :: 0 < k <= |url| && (forall i :: 0 <= i < k ==> IsAsciiLetter(url[i])) && StartsWith(url[k..], "://")
  }

  /** The scanning test accepts exactly the strings the expression matches. */
  lemma AbsoluteURLMatchesPattern(url: string)
    ensures IsAbsoluteURL(url) <==> SchemePattern(url)
  {
    var n := LeadingLetters(url);
    if IsAbsoluteURL(url) && !StartsWith(url, "//") {
      assert StartsWith(url[n..], "://");
    }
    if SchemePattern(url) && !StartsWith(url, "//") {
      var k :| 0 < k <= |url| && (forall i :: 0 <= i < k ==> IsAsciiLetter(url[i])) && StartsWith(url[k..], "://");
      assert url[k] == ':';
      assert n == k;
    }
  }

  /** Relative references, a colon without a scheme and a scheme with a digit
      are not absolute. */
  lemma RelativeURLExamples()
    ensures !IsAbsoluteURL("/path") && !IsAbsoluteURL("path/x")
    ensures !IsAbsoluteURL("://x") && !IsAbsoluteURL("h2://x")
  {
    assert "/path"[1] != "//"[1];
    assert LeadingLetters("/path") == 0;
    assert "path/x"[0] != "//"[0];
    assert LeadingLetters("path/x") == 4;
    assert "://x"[0] != "//"[0];
    assert LeadingLetters("://x") == 0;
    assert "h2://x"[0] != "//"[0];
    assert LeadingLetters("h2://x") == 1;
    assert "h2://x"[1..][0] != "://"[0];
  }

  /** A scheme in either case and a protocol-relative URL are absolute. */
  lemma AbsoluteURLExamples()
    ensures IsAbsoluteURL("https://x") && IsAbsoluteURL("HTTP://x")
    ensures IsAbsoluteURL("//cdn")
  {
    assert LeadingLetters("https://x") == 5;
    assert "https://x"[5..][..3] == "://";
    assert LeadingLetters("HTTP://x") == 4;
    assert "HTTP://x"[4..][..3] == "://";
    assert "//cdn"[..2] == "//";
  }

  // ---------------------------------------------------------------------------
  // isEmptyObj and hasOwn
  // ---------------------------------------------------------------------------

  /** The number of keys `for ... in` visits on a truthy value: an object's own
      keys, an array's or a string's indices; a number or `true` has none. */
  function EnumerableKeyCount(v: JsValues.Value): nat {
    match v
    case Obj(props) => |props|
    case Arr(items) => |items|
    case Str(s) => |s|
    case _ => 0
  }

  /** `isEmptyObj`: a falsy value is empty; otherwise the value is empty unless
      the `for ... in` loop finds a first key. */
  function IsEmptyObj(obj: JsValues.Value): (r: bool)
    ensures obj.Undefined? || obj.Null? ==> r
    ensures obj.Obj? ==> (r <==> |obj.props| == 0)
    ensures obj.Arr? ==> (r <==> |obj.items| == 0)
  {
    !JsValues.Truthy(obj) || EnumerableKeyCount(obj) == 0
  }

  /** `hasOwn` on an object, whose own properties are the keys of its map. */
  function HasOwn(props: map<string, JsValues.Value>, key: string): bool {
    key in props
  }

  /** An object is empty exactly when it owns no key at all. */
  lemma EmptyObjIffNoOwnKey(props: map<string, JsValues.Value>)
    ensures IsEmptyObj(JsValues.Obj(props)) <==> forall key :: !HasOwn(props, key)
  {
    if !IsEmptyObj(JsValues.Obj(props)) {
      var key :| key in props;
      assert HasOwn(props, key);
    }
  }

  // ---------------------------------------------------------------------------
  // validatePositiveInteger
  // ---------------------------------------------------------------------------

  /** `validatePositiveInteger`: anything but an integral number is rejected
      first, then a negative number; zero and positive integers come back
      unchanged. */
  function ValidatePositiveInteger(name: string, n: JsValues.Value): (r: Result<real, Error>)
    ensures r.Success? <==> n.Num? && JsValues.IsInteger(n.n) && n.n >= 0.0
    ensures r.Success? ==> r.value == n.n
    ensures !(n.Num? && JsValues.IsInteger(n.n)) ==> r == Failure(DataMakerError(name + " must be an integer"))
    ensures n.Num? && JsValues.IsInteger(n.n) && n.n < 0.0 ==>
      r == Failure(DataMakerError(name + " must be a positive integer"))
  {
    if !n.Num? || !JsValues.IsInteger(n.n) then
      Failure(DataMakerError(name + " must be an integer"))
    else if n.n < 0.0 then
      Failure(DataMakerError(name + " must be a positive integer"))
    else
      Success(n.n)
  }

  /** A value the validator returned passes it again, unchanged. */
  lemma ValidateIdempotent(name: string, n: JsValues.Value)
    requires ValidatePositiveInteger(name, n).Success?
    ensures ValidatePositiveInteger(name, JsValues.Num(ValidatePositiveInteger(name, n).value))
         == ValidatePositiveInteger(name, n)
  {
  }

  /** The integer check comes first: -1.5 reports the integer error, not the
      sign error; a string is rejected the same way; zero passes. */
  lemma ValidateExamples()
    ensures ValidatePositiveInteger("quantity", JsValues.Num(-1.5))
         == Failure(DataMakerError("quantity must be an integer"))
    ensures ValidatePositiveInteger("quantity", JsValues.Str("3"))
         == Failure(DataMakerError("quantity must be an integer"))
    ensures ValidatePositiveInteger("quantity", JsValues.Num(-2.0))
         == Failure(DataMakerError("quantity must be a positive integer"))
    ensures ValidatePositiveInteger("quantity", JsValues.Num(0.0)) == Success(0.0)
  {
    assert (-1.5).Floor == -2;
    assert "quantity" + " must be an integer" == "quantity must be an integer";
    assert "quantity" + " must be a positive integer" == "quantity must be a positive integer";
  }

  // ---------------------------------------------------------------------------
  // toBase64
  // ---------------------------------------------------------------------------

  const NoEncoderMessage: string := "Cannot generate b64 string; Expected `Buffer` or `btoa` to be defined"

  /** `toBase64`: `null`, `undefined` (both `None`) and the empty string give
      the empty string; any other input goes to the runtime's encoder, and
      without one the helper throws. */
  function ToBase64(str: Option<string>, encoder: Option<string -> string>): (r: Result<string, Error>)
    ensures str.None? || str == Some("") ==> r == Success("")
    ensures str.Some? && str.value != "" && encoder.Some? ==> r == Success(encoder.value(str.value))
    ensures str.Some? && str.value != "" && encoder.None? ==> r == Failure(DataMakerError(NoEncoderMessage))
  {
    if str.None? || str.value == "" then Success("")
    else if encoder.Some? then Success(encoder.value(str.value))
    else Failure(DataMakerError(NoEncoderMessage))
  }

  /** The empty-input rule never consults the runtime: the result for an
      empty input is the same whatever encoder is available, or none. */
  lemma EmptyInputNeedsNoEncoder(str: Option<string>, e1: Option<string -> string>, e2: Option<string -> string>)
    requires str.None? || str == Some("")
    ensures ToBase64(str, e1) == ToBase64(str, e2) == Success("")
  {
  }
}
