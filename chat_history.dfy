/** The chat-history handler of src/Handlers/ChatHistory.ts: the `startId`
    cursor guard and the request it addresses.

    The guard uses JavaScript's `parseInt` with no radix, modelled here on
    its own terms: leading white space is skipped, one sign is taken, a
    `0x`/`0X` prefix selects base 16, and the longest run of digits valid in
    the base is read; with no such digit the result is `NaN` (`None`). */
module ChatHistory {
  import opened Common

  /** The white space `parseInt` skips: the WhiteSpace and LineTerminator
      characters of ECMA-262 (sections 12.2 and 12.3), with the space
      separators of the Unicode category Zs written out. */
  predicate IsJsSpace(c: char) {
    var n := c as int;
    // TAB, LF, VT, FF, CR and SPACE
    n == 9 || n == 10 || n == 11 || n == 12 || n == 13 || n == 0x20
    // NO-BREAK SPACE, OGHAM SPACE MARK and the spaces U+2000 to U+200A
    || n == 0xA0 || n == 0x1680 || 0x2000 <= n <= 0x200A
    // LINE SEPARATOR, PARAGRAPH SEPARATOR
    || n == 0x2028 || n == 0x2029
    // NARROW NO-BREAK SPACE, MEDIUM MATHEMATICAL SPACE, IDEOGRAPHIC SPACE, BYTE ORDER MARK
    || n == 0x202F || n == 0x205F || n == 0x3000 || n == 0xFEFF
  }

  /** `s` without its leading white space. */
  function TrimStart(s: string): (t: string)
    ensures |t| <= |s| && t == s[|s| - |t|..]
    ensures t == [] || !IsJsSpace(t[0])
    ensures forall i :: 0 <= i < |s| - |t| ==> IsJsSpace(s[i])
  {
    if s != [] && IsJsSpace(s[0]) then TrimStart(s[1..]) else s
  }

  /** The value of a digit character in base 10 or 16, if it is one. */
  function DigitIn(c: char, radix: nat): (d: Option<nat>)
    requires radix == 10 || radix == 16
    ensures IsDigit(c) ==> d == Some(c as int - '0' as int)
    ensures d.Some? ==> d.value < radix
  {
    if '0' <= c <= '9' then Some(c as int - '0' as int)
    else if radix == 16 && 'a' <= c <= 'f' then Some(c as int - 'a' as int + 10)
    else if radix == 16 && 'A' <= c <= 'F' then Some(c as int - 'A' as int + 10)
    else None
  }

  /** The length of the leading run of digits of `s` in the base. */
  function LeadingDigits(s: string, radix: nat): (k: nat)
    requires radix == 10 || radix == 16
    ensures k <= |s|
    ensures forall i :: 0 <= i < k ==> DigitIn(s[i], radix).Some?
    ensures k < |s| ==> DigitIn(s[k], radix).None?
  {
    if s != [] && DigitIn(s[0], radix).Some? then 1 + LeadingDigits(s[1..], radix) else 0
  }

  /** The value of a string of digits in the base. */
  function RadixValue(s: string, radix: nat): nat
    requires radix == 10 || radix == 16
    requires forall i :: 0 <= i < |s| ==> DigitIn(s[i], radix).Some?
    decreases |s|
  {
    if s == [] then 0
    else
      assert DigitIn(s[|s| - 1], radix).Some?;
      radix * RadixValue(s[..|s| - 1], radix) + DigitIn(s[|s| - 1], radix).value
  }

  /** The text after an optional sign. */
  function Unsigned(t: string): string {
    if t != [] && (t[0] == '-' || t[0] == '+') then t[1..] else t
  }

  /** Whether the unsigned text selects base 16. */
  predicate HexPrefixed(u: string) {
    |u| >= 2 && u[0] == '0' && (u[1] == 'x' || u[1] == 'X')
  }

  /** The magnitude `parseInt` reads from unsigned text, if any digit is there. */
  function ParseMagnitude(u: string): Option<nat> {
    var radix := if HexPrefixed(u) then 16 else 10;
    var v := if HexPrefixed(u) then u[2..] else u;
    var k := LeadingDigits(v, radix);
    if k == 0 then None else Some(RadixValue(v[..k], radix))
  }

  /** JavaScript `parseInt(s)`; `None` stands for `NaN`. The result is
      `NaN` exactly when, after the white space and one sign, there is no
      digit: for a `0x` prefix, no hexadecimal digit right after it. A
      leading minus gives a result of at most zero, anything else one of
      at least zero. */
  function ParseInt(s: string): (r: Option<int>)
    ensures var u := Unsigned(TrimStart(s));
            r.None? <==> if HexPrefixed(u) then |u| == 2 || DigitIn(u[2], 16).None?
                         else u == [] || DigitIn(u[0], 10).None?
    ensures r.Some? && TrimStart(s) != [] && TrimStart(s)[0] == '-' ==> r.value <= 0
    ensures r.Some? && (TrimStart(s) == [] || TrimStart(s)[0] != '-') ==> r.value >= 0
  {
    var t := TrimStart(s);
    match ParseMagnitude(Unsigned(t))
    case None => None
    case Some(m) => Some(if t != [] && t[0] == '-' then 0 - m else m)
  }

  // ---------------------------------------------------------------------
  // The handler
  // ---------------------------------------------------------------------

  const StartIdNotANumber: string := "StartId must be a number"

  datatype GetRequest = GetRequest(url: string, headers: map<string, string>)

  /** How `getChatHistory` proceeds: it throws before any request, or it
      issues a GET. (The returned promise then reads the response before the
      request's callback can have run; that part is not modelled.) */
  datatype ChatHistoryCall = Threw(message: string) | Requested(request: GetRequest)

  /** The request path: the session id, then the original `startId` text
      (not its parsed value) and the length in decimal. */
  function ChatsUrl(sessionId: string, startId: string, length: int): (r: string)
    ensures |r| >= 11 && r[..11] == "/api/chats/"
    ensures |r| >= |ChatsQuery(startId, length)| && r[|r| - |ChatsQuery(startId, length)|..] == ChatsQuery(startId, length)
  {
    "/api/chats/" + sessionId + "/?" + ChatsQuery(startId, length)
  }

  /** `getChatHistory(session_id, startId, length)`. */
  function GetChatHistory(sessionId: string, startId: string, length: int): (r: ChatHistoryCall)
    ensures ParseInt(startId).None? <==> r == Threw(StartIdNotANumber)
    ensures r.Requested? ==> r.request == GetRequest(ChatsUrl(sessionId, startId, length), map[])
  {
    if ParseInt(startId).None? then Threw(StartIdNotANumber)
    else Requested(GetRequest(ChatsUrl(sessionId, startId, length), map[]))
  }

  // ---------------------------------------------------------------------
  // Properties
  // ---------------------------------------------------------------------

  lemma {:induction false} RadixTenIsDecimal(s: string)
    requires forall i :: 0 <= i < |s| ==> IsDigit(s[i])
    ensures RadixValue(s, 10) == DigitsValue(s)
    decreases |s|
  {
    if s != [] {
      RadixTenIsDecimal(s[..|s| - 1]);
    }
  }

  lemma {:induction false} LeadingDigitsOfDecimal(d: string, rest: string)
    requires forall i :: 0 <= i < |d| ==> IsDigit(d[i])
    requires rest == [] || !IsDigit(rest[0])
    ensures LeadingDigits(d + rest, 10) == |d|
    decreases |d|
  {
    if d != [] {
      assert (d + rest)[1..] == d[1..] + rest;
      LeadingDigitsOfDecimal(d[1..], rest);
    }
  }

  /** A cursor that starts with the decimal text of a number, followed by
      anything that is neither a digit nor a hex marker, parses to that
      number: `parseInt` reads a prefix, so `"12abc"` passes the guard. */
  lemma ParseIntOfDecimalPrefix(n: nat, rest: string)
    requires rest == [] || (!IsDigit(rest[0]) && rest[0] != 'x' && rest[0] != 'X')
    ensures ParseInt(NatToString(n) + rest) == Some(n)
  {
    DecimalPrefixUnprefixed(n, rest);
    MagnitudeOfDecimalPrefix(n, rest);
    ParseIntOfDigits(NatToString(n) + rest, n);
  }

  /** Text that starts with a digit is read as it stands: no white space
      to skip, no sign, so the value is the magnitude. */
  lemma ParseIntOfDigits(s: string, n: nat)
    requires s != [] && IsDigit(s[0]) && ParseMagnitude(s) == Some(n)
    ensures ParseInt(s) == Some(n)
  {
    assert !IsJsSpace(s[0]);
    assert TrimStart(s) == s;
    assert Unsigned(s) == s;
  }

  lemma DecimalPrefixUnprefixed(n: nat, rest: string)
    requires rest == [] || (rest[0] != 'x' && rest[0] != 'X')
    ensures var s := NatToString(n) + rest; s != [] && IsDigit(s[0]) && !HexPrefixed(s)
  {
    var d := NatToString(n);
    var s := d + rest;
    assert s[0] == d[0];
    if |s| >= 2 {
      if |d| >= 2 { assert s[1] == d[1]; } else { assert s[1] == rest[0]; }
    }
  }

  lemma MagnitudeOfDecimalPrefix(n: nat, rest: string)
    requires rest == [] || (!IsDigit(rest[0]) && rest[0] != 'x' && rest[0] != 'X')
    ensures ParseMagnitude(NatToString(n) + rest) == Some(n)
  {
    var d := NatToString(n);
    var s := d + rest;
    DecimalPrefixUnprefixed(n, rest);
    LeadingDigitsOfDecimal(d, rest);
    assert s[..|d|] == d;
    RadixTenIsDecimal(d);
    DigitsValueOfNatToString(n);
  }

  /** A cursor with no digit where `parseInt` looks for one is rejected
      before any request is made. */
  lemma NonNumericCursorRejected(sessionId: string, startId: string, length: int)
    requires startId != [] && !IsJsSpace(startId[0]) && !IsDigit(startId[0])
    requires startId[0] != '-' && startId[0] != '+'
    ensures GetChatHistory(sessionId, startId, length) == Threw(StartIdNotANumber)
  {
    assert TrimStart(startId) == startId;
    assert DigitIn(startId[0], 10).None?;
  }

  lemma IntToStringHasNo(i: int, c: char)
    requires c != '-' && !IsDigit(c)
    ensures c !in IntToString(i)
  {
    if i < 0 {
      assert IntToString(i) == "-" + NatToString(-i);
    }
  }

  /** The query text of a chats request. */
  function ChatsQuery(startId: string, length: int): string {
    "startId=" + startId + "&length=" + IntToString(length)
  }

  /** The query splits on `&` into the two parameters, the first carrying
      the cursor text verbatim, when the cursor has no `&`. */
  lemma ChatsQueryCarriesCursor(startId: string, length: int)
    requires '&' !in startId
    ensures Split(ChatsQuery(startId, length), "&") == ["startId=" + startId, "length=" + IntToString(length)]
  {
    IntToStringHasNo(length, '&');
    var first := "startId=" + startId;
    var second := "length=" + IntToString(length);
    assert '&' !in first;
    assert '&' !in second;
    assert ChatsQuery(startId, length) == first + ['&'] + second;
    SplitTwoAtChar(first, '&', second);
  }

  /** The server can read the cursor back: when the session id has no `?`
      and the cursor has no `?`, the URL splits on `?` into the path and the
      query (which `ChatsQueryCarriesCursor` takes apart). */
  lemma ChatsUrlSplitsAtQuery(sessionId: string, startId: string, length: int)
    requires '?' !in sessionId && '?' !in startId
    ensures Split(ChatsUrl(sessionId, startId, length), "?") == ["/api/chats/" + sessionId + "/", ChatsQuery(startId, length)]
  {
    IntToStringHasNo(length, '?');
    var path := "/api/chats/" + sessionId + "/";
    var query := ChatsQuery(startId, length);
    assert '?' !in path;
    assert '?' !in query;
    assert ChatsUrl(sessionId, startId, length) == path + ['?'] + query;
    SplitTwoAtChar(path, '?', query);
  }
}
