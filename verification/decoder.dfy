/**
  The envelope decoder (`parse_request`): the client prepends an opaque
  signature of unknown length to its JSON payload, and the server recovers
  the payload by trying the whole message, then the suffix after the usual
  44-character signature, then every suffix starting before offset 100.

  `json.loads` is the parameter `parse`: a partial function from text to a
  JSON value, `None` where it raises `JSONDecodeError`.
 */
module Decoder {
  import opened Json

  datatype Result<+T> = Ok(value: T) | Err(msg: string)

  /** Length of a base64-encoded HMAC-SHA256 signature, the fast-path offset. */
  const SignatureLength: nat := 44

  /** Offsets at or beyond this bound are never scanned. */
  const ScanLimit: nat := 100

  /** The `ValueError` message raised when no offset yields JSON. */
  const CannotParse := "Invalid request format: cannot parse JSON"

  /** Python's `s[i:]` for a non-negative `i`: empty once `i` passes the end. */
  function Suffix(s: string, i: nat): string {
    if i <= |s| then s[i..] else ""
  }

  /** The suffix of `s` at offset `i` parses as JSON. */
  predicate ParsesAt(parse: string -> Option<Json>, s: string, i: nat) {
    parse(Suffix(s, i)).Some?
  }

  /** `i` is the least offset whose suffix parses. */
  predicate FirstParseAt(parse: string -> Option<Json>, s: string, i: nat) {
    && ParsesAt(parse, s, i)
    && forall j :: 0 <= j < i ==> !ParsesAt(parse, s, j)
  }

  /** `min(100, len(message))`, the end of the scanned range. */
  function ScanBound(s: string): nat {
    if |s| < ScanLimit then |s| else ScanLimit
  }

  /** The least offset in `[i, n)` whose suffix parses, if any. */
  function FirstParsable(parse: string -> Option<Json>, s: string, i: nat, n: nat): (r: Option<nat>)
    decreases n - i
    ensures r.Some? ==> i <= r.value < n && ParsesAt(parse, s, r.value)
    ensures r.Some? ==> forall j :: i <= j < r.value ==> !ParsesAt(parse, s, j)
    ensures r.None? ==> forall j :: i <= j < n ==> !ParsesAt(parse, s, j)
  {
    if n <= i then None
    else if ParsesAt(parse, s, i) then Some(i)
    else FirstParsable(parse, s, i + 1, n)
  }

  /**
    `parse_request`. The whole message wins if it parses; otherwise the
    suffix at offset 44 wins over every scanned offset, including smaller
    ones; otherwise the least scanned offset that parses wins. It fails
    exactly when every tried offset fails.
   */
  function ParseRequest(parse: string -> Option<Json>, message: string): (r: Result<Json>)
    ensures parse(message).Some? ==> r == Ok(parse(message).value)
    ensures parse(message).None? && ParsesAt(parse, message, SignatureLength) ==>
              r == Ok(parse(Suffix(message, SignatureLength)).value)
    ensures parse(message).None? && !ParsesAt(parse, message, SignatureLength) && r.Ok? ==>
              exists i :: 0 <= i < ScanBound(message) && FirstParseAt(parse, message, i)
                          && r.value == parse(Suffix(message, i)).value
    ensures r.Err? <==>
              && parse(message).None?
              && !ParsesAt(parse, message, SignatureLength)
              && forall i :: 0 <= i < ScanBound(message) ==> !ParsesAt(parse, message, i)
    ensures r.Err? ==> r.msg == CannotParse
  {
    var whole := parse(message);
    if whole.Some? then Ok(whole.value)
    else
      var signed := parse(Suffix(message, SignatureLength));
      if signed.Some? then Ok(signed.value)
      else
        match FirstParsable(parse, message, 0, ScanBound(message))
        case Some(i) => Ok(parse(Suffix(message, i)).value)
        case None => Err(CannotParse)
  }

  /** Two parsers that agree on every suffix in `[i, n)` scan alike. */
  lemma {:induction false} FirstParsableLocal(p1: string -> Option<Json>, p2: string -> Option<Json>,
                                              s: string, i: nat, n: nat)
    requires forall j :: i <= j < n ==> p1(Suffix(s, j)) == p2(Suffix(s, j))
    ensures FirstParsable(p1, s, i, n) == FirstParsable(p2, s, i, n)
    decreases n - i
  {
    if i < n {
      assert p1(Suffix(s, i)) == p2(Suffix(s, i));
      FirstParsableLocal(p1, p2, s, i + 1, n);
    }
  }

  /**
    The decoder looks at no other offsets than the whole message, offset 44
    and the scanned range: parsers that agree there decode alike.
   */
  lemma ParseRequestTriesOnlyKnownOffsets(p1: string -> Option<Json>, p2: string -> Option<Json>,
                                          message: string)
    requires p1(message) == p2(message)
    requires p1(Suffix(message, SignatureLength)) == p2(Suffix(message, SignatureLength))
    requires forall i :: 0 <= i < ScanBound(message) ==> p1(Suffix(message, i)) == p2(Suffix(message, i))
    ensures ParseRequest(p1, message) == ParseRequest(p2, message)
  {
    FirstParsableLocal(p1, p2, message, 0, ScanBound(message));
  }

  /**
    A payload behind a prefix shorter than 100 characters is recovered when
    the offsets tried before it fail. An empty prefix wins at once. A
    44-character prefix needs only the whole message to fail. Any other
    prefix needs every smaller offset, and offset 44, to fail.
   */
  lemma RecoversPayload(parse: string -> Option<Json>, prefix: string, payload: string)
    requires payload != "" && |prefix| < ScanLimit
    requires parse(payload).Some?
    requires forall j :: 0 <= j < (if |prefix| == SignatureLength then 1 else |prefix|) ==>
               !ParsesAt(parse, prefix + payload, j)
    requires |prefix| == 0 || |prefix| == SignatureLength || !ParsesAt(parse, prefix + payload, SignatureLength)
    ensures ParseRequest(parse, prefix + payload) == Ok(parse(payload).value)
  {
    var s := prefix + payload;
    assert Suffix(s, |prefix|) == payload;
    if |prefix| == 0 {
      assert s == payload;
    } else {
      assert Suffix(s, 0) == s;
      assert parse(s).None? by { assert !ParsesAt(parse, s, 0); }
      if |prefix| != SignatureLength {
        assert FirstParseAt(parse, s, |prefix|);
      }
    }
  }

  /** A toy parser that accepts only non-empty runs of decimal digits. */
  function Digits(s: string): Option<Json> {
    if s != "" && forall k :: 0 <= k < |s| ==> '0' <= s[k] <= '9'
    then Some(JInt(DigitValue(s)))
    else None
  }

  function DigitValue(s: string): int
    decreases |s|
  {
    if s == "" then 0 else DigitValue(s[..|s| - 1]) * 10 + (s[|s| - 1] as int - '0' as int)
  }

  /**
    The decoded value need not be an object: with a parser that accepts
    numbers, `"abc123"` decodes through the scan to the number 123.
   */
  lemma TrailingNumberIsRecovered()
    ensures ParseRequest(Digits, "abc123") == Ok(JInt(123))
  {
    var s := "abc123";
    assert !ParsesAt(Digits, s, 0) by { assert s[0] == 'a'; }
    assert !ParsesAt(Digits, s, 1) by { assert Suffix(s, 1)[0] == 'b'; }
    assert !ParsesAt(Digits, s, 2) by { assert Suffix(s, 2)[0] == 'c'; }
    assert Suffix(s, 3) == "123";
    assert DigitValue("123") == 123 by {
      assert "123"[..2] == "12";
      assert "12"[..1] == "1";
      assert "1"[..0] == "";
    }
    assert FirstParseAt(Digits, s, 3);
  }
}
