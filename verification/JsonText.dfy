/** The client's hand-written JSON helpers: escaping, the scan for a string's end, and integers. */
module JsonText {
  import opened Common

  const INT64_MAX: int := 0x7FFF_FFFF_FFFF_FFFF

  // ---- Escaping -----------------------------------------------------------------------

  function HexDigit(n: nat): char
    requires n < 16
  {
    "0123456789abcdef"[n]
  }

  function EscapeChar(c: char): (e: string)
    ensures |e| >= 1
  {
    if c == '"' then "\\\""
    else if c == '\\' then "\\\\"
    else if c == '/' then "\\/"
    else if c == '\n' then "\\n"
    else if c == '\r' then "\\r"
    else if c == '\t' then "\\t"
    else if c == 8 as char then "\\b"
    else if c == 12 as char then "\\f"
    else if c as int < 0x20 then "\\u00" + [HexDigit(c as int / 16), HexDigit(c as int % 16)]
    else [c]
  }

  /** The escapes the client writes: one for each special character, `\u` for the other control characters. */
  lemma EscapeTable(c: char)
    ensures EscapeChar('"') == "\\\"" && EscapeChar('\\') == "\\\\" && EscapeChar('/') == "\\/"
    ensures EscapeChar('\n') == "\\n" && EscapeChar('\r') == "\\r" && EscapeChar('\t') == "\\t"
    ensures EscapeChar(8 as char) == "\\b" && EscapeChar(12 as char) == "\\f" && EscapeChar(0x1F as char) == "\\u001f"
    ensures c as int >= 0x20 && c !in {'"', '\\', '/'} ==> EscapeChar(c) == [c]
    ensures c as int < 0x20 && c !in {'\n', '\r', '\t', 8 as char, 12 as char} ==>
              |EscapeChar(c)| == 6 && EscapeChar(c)[..4] == "\\u00"
  {
    assert HexDigit(1) == '1' && HexDigit(15) == 'f';
  }

  function Escape(raw: string): string {
    if raw == "" then "" else EscapeChar(raw[0]) + Escape(raw[1..])
  }

  lemma {:induction false} EscapeSplits(a: string, b: string)
    ensures Escape(a + b) == Escape(a) + Escape(b)
  {
    if a == "" {
      assert a + b == b;
    } else {
      EscapeSplits(a[1..], b);
      SplitsFirst(a, b);
      Regroup(EscapeChar(a[0]), Escape(a[1..]), Escape(b));
    }
  }

  lemma SplitsFirst(a: string, b: string)
    requires a != ""
    ensures Escape(a + b) == EscapeChar(a[0]) + Escape(a[1..] + b)
  {
    assert (a + b)[0] == a[0] && (a + b)[1..] == a[1..] + b;
  }

  method EscapeJsonString(raw: string) returns (out: string)
    ensures out == Escape(raw)
  {
    out := "";
    for i := 0 to |raw|
      invariant out == Escape(raw[..i])
    {
      EscapeSplits(raw[..i], [raw[i]]);
      assert raw[..i + 1] == raw[..i] + [raw[i]];
      assert Escape([raw[i]]) == EscapeChar(raw[i]);
      out := out + EscapeChar(raw[i]);
    }
    assert raw[..|raw|] == raw;
  }

  function HexValue(c: char): Option<nat> {
    if '0' <= c <= '9' then Some(c as int - '0' as int)
    else if 'a' <= c <= 'f' then Some(c as int - 'a' as int + 10)
    else if 'A' <= c <= 'F' then Some(c as int - 'A' as int + 10)
    else None
  }

  /**
   The first character a JSON string body stands for and how much of the body
   spells it (section 7 of RFC 8259). `\u` escapes beyond ASCII are not modelled.
   */
  function FirstChar(body: string): Option<(char, nat)>
    requires body != ""
  {
    if body[0] != '\\' then
      if body[0] == '"' || body[0] as int < 0x20 then None else Some((body[0], 1))
    else if |body| < 2 then None
    else if body[1] == '"' || body[1] == '\\' || body[1] == '/' then Some((body[1], 2))
    else if body[1] == 'b' then Some((8 as char, 2))
    else if body[1] == 'f' then Some((12 as char, 2))
    else if body[1] == 'n' then Some(('\n', 2))
    else if body[1] == 'r' then Some(('\r', 2))
    else if body[1] == 't' then Some(('\t', 2))
    else if body[1] == 'u' && |body| >= 6 && body[2] == '0' && body[3] == '0' then
      var high, low := HexValue(body[4]), HexValue(body[5]);
      if high.Some? && low.Some? && high.value < 8 then Some(((16 * high.value + low.value) as char, 6)) else None
    else None
  }

  /** The text a JSON string body stands for, or `None` when it is not one. */
  function Unescape(body: string): Option<string>
    decreases |body|
  {
    if body == "" then Some("")
    else
      var first := FirstChar(body);
      if first.None? || first.value.1 > |body| || first.value.1 == 0 then None
      else
        var rest := Unescape(body[first.value.1..]);
        if rest.None? then None else Some([first.value.0] + rest.value)
  }

  lemma FirstOfEscaped(c: char, rest: string)
    ensures FirstChar(EscapeChar(c) + rest) == Some((c, |EscapeChar(c)|))
  {
    var e := EscapeChar(c) + rest;
    if c as int < 0x20 {
      assert c as int / 16 < 2 && 16 * (c as int / 16) + c as int % 16 == c as int;
    }
  }

  /** Unescaping an escaped string gives the string back, whatever it contains. */
  lemma {:induction false} UnescapeInvertsEscape(raw: string)
    ensures Unescape(Escape(raw)) == Some(raw)
  {
    if raw != "" {
      var e, rest := EscapeChar(raw[0]), Escape(raw[1..]);
      FirstOfEscaped(raw[0], rest);
      UnescapeInvertsEscape(raw[1..]);
      assert e + rest != "" && (e + rest)[|e|..] == rest;
      assert [raw[0]] + raw[1..] == raw;
    }
  }

  // ---- The end of a string ------------------------------------------------------------

  /** Where the closing-quote scan stops; at or beyond the end when there is no quote. */
  function Close(json: string, i: nat): nat
    decreases |json| - i
  {
    if i >= |json| then i
    else if json[i] == '\\' then Close(json, i + 2)
    else if json[i] == '"' then i
    else Close(json, i + 1)
  }

  lemma ScanOverEscaped(json: string, i: nat, c: char)
    requires i + |EscapeChar(c)| < |json| && json[i..i + |EscapeChar(c)|] == EscapeChar(c)
    ensures Close(json, i) == Close(json, i + |EscapeChar(c)|)
  {
    var e := EscapeChar(c);
    assert forall k :: 0 <= k < |e| ==> json[i + k] == json[i..i + |e|][k] == e[k];
    assert json[i] == e[0];
    if |e| == 6 {
      assert json[i + 2] == e[2] && json[i + 3] == e[3] && json[i + 4] == e[4] && json[i + 5] == e[5];
      assert Close(json, i) == Close(json, i + 2) == Close(json, i + 3) == Close(json, i + 4);
      assert Close(json, i + 4) == Close(json, i + 5) == Close(json, i + 6);
    }
  }

  lemma ScanOverChar(json: string, i: nat, c: char, rest: string) returns (j: nat)
    requires i + |EscapeChar(c) + rest| < |json|
    requires json[i..i + |EscapeChar(c) + rest|] == EscapeChar(c) + rest
    ensures j == i + |EscapeChar(c)| && Close(json, i) == Close(json, j) && json[j..j + |rest|] == rest
  {
    j := i + |EscapeChar(c)|;
    SplitSlice(json, i, EscapeChar(c), rest);
    ScanOverEscaped(json, i, c);
  }

  /** The scan passes over the first escaped character and stays inside the string. */
  lemma ScanOverFirst(json: string, i: nat, raw: string) returns (j: nat)
    requires raw != "" && i + |Escape(raw)| < |json| && json[i..i + |Escape(raw)|] == Escape(raw)
    ensures Close(json, i) == Close(json, j) && j + |Escape(raw[1..])| == i + |Escape(raw)|
    ensures json[j..j + |Escape(raw[1..])|] == Escape(raw[1..])
  {
    j := ScanOverChar(json, i, raw[0], Escape(raw[1..]));
  }

  /** The scan over a quoted escaped string stops exactly at its closing quote. */
  lemma {:induction false} ScanFindsClosingQuote(json: string, start: nat, raw: string)
    requires start + |Escape(raw)| < |json|
    requires json[start..start + |Escape(raw)|] == Escape(raw) && json[start + |Escape(raw)|] == '"'
    ensures Close(json, start) == start + |Escape(raw)|
    decreases |raw|
  {
    if raw != "" {
      var next := ScanOverFirst(json, start, raw);
      ScanFindsClosingQuote(json, next, raw[1..]);
    }
  }

  lemma SplitSlice(json: string, i: nat, a: string, b: string)
    requires i + |a + b| <= |json| && json[i..i + |a + b|] == a + b
    ensures json[i..i + |a|] == a && json[i + |a|..i + |a| + |b|] == b
  {
    assert json[i..i + |a|] == json[i..i + |a + b|][..|a|];
    assert json[i + |a|..i + |a| + |b|] == json[i..i + |a + b|][|a|..];
  }

  // ---- Finding a value ------------------------------------------------------------------

  predicate At(json: string, key: string, p: nat) {
    p + |key| <= |json| && json[p..p + |key|] == key
  }

  /** `std::string::find`: the first occurrence of `key` at or after `from`. */
  function Find(json: string, key: string, from: nat): (p: Option<nat>)
    ensures p.Some? ==> from <= p.value && At(json, key, p.value)
    ensures p.Some? ==> forall q :: from <= q < p.value ==> !At(json, key, q)
    ensures p.None? ==> forall q :: from <= q ==> !At(json, key, q)
    decreases |json| - from
  {
    if from + |key| > |json| then None
    else if At(json, key, from) then Some(from)
    else Find(json, key, from + 1)
  }

  /** The first position at or after `i` that is neither a blank nor a tab. */
  function SkipBlanks(json: string, i: nat): (j: nat)
    requires i <= |json|
    ensures i <= j <= |json|
    ensures forall k :: i <= k < j ==> json[k] == ' ' || json[k] == '\t'
    ensures j < |json| ==> json[j] != ' ' && json[j] != '\t'
    decreases |json| - i
  {
    if i < |json| && (json[i] == ' ' || json[i] == '\t') then SkipBlanks(json, i + 1) else i
  }

  /** The position of the value of a key: behind the colon and the blanks after it. */
  function ValueAt(json: string, key: string): (at: Option<nat>)
    ensures at.Some? ==> at.value <= |json|
  {
    var pos := Find(json, key, 0);
    if pos.None? then None
    else
      var colon := Find(json, ":", pos.value + |key|);
      if colon.None? then None else Some(SkipBlanks(json, colon.value + 1))
  }

  /** A value follows the first occurrence of its key, the first colon behind that, and nothing but blanks. */
  lemma ValueFollowsKey(json: string, key: string)
    ensures var at := ValueAt(json, key);
            if at.None? then
              || (forall q :: !At(json, key, q))
              || exists k: nat :: At(json, key, k) && forall q :: k + |key| <= q < |json| ==> json[q] != ':'
            else exists k: nat, c: nat :: ValueBehind(json, key, k, c, at.value)
  {
    var pos := Find(json, key, 0);
    if pos.Some? {
      var colon := Find(json, ":", pos.value + |key|);
      if colon.Some? {
        ColonAt(json, colon.value);
        forall q | pos.value + |key| <= q < colon.value
          ensures json[q] != ':'
        {
          ColonAt(json, q);
        }
        assert ValueBehind(json, key, pos.value, colon.value, ValueAt(json, key).value);
      } else {
        forall q | pos.value + |key| <= q < |json|
          ensures json[q] != ':'
        {
          ColonAt(json, q);
        }
        assert At(json, key, pos.value);
      }
    }
  }

  lemma ColonAt(json: string, q: nat)
    requires q < |json|
    ensures At(json, ":", q) <==> json[q] == ':'
  {
    assert json[q..q + 1] == [json[q]];
  }

  predicate ValueBehind(json: string, key: string, k: nat, c: nat, v: nat) {
    && At(json, key, k) && (forall q :: 0 <= q < k ==> !At(json, key, q))
    && k + |key| <= c < v <= |json| && json[c] == ':'
    && (forall q :: k + |key| <= q < c ==> json[q] != ':')
    && (forall q :: c < q < v ==> json[q] == ' ' || json[q] == '\t')
    && (v < |json| ==> json[v] != ' ' && json[v] != '\t')
  }

  /** The search all extractors begin with. */
  method LocateValue(json: string, key: string) returns (at: Option<nat>)
    ensures at == ValueAt(json, key)
  {
    var found := Find(json, key, 0);
    if found.None? {
      return None;
    }
    var colon := Find(json, ":", found.value + |key|);
    if colon.None? {
      return None;
    }
    var pos := colon.value + 1;
    while pos < |json| && (json[pos] == ' ' || json[pos] == '\t')
      invariant pos <= |json| && SkipBlanks(json, pos) == SkipBlanks(json, colon.value + 1)
    {
      pos := pos + 1;
    }
    return Some(pos);
  }

  /** The text between the quote at `at` and its closing quote. */
  function StringAt(json: string, at: nat): string {
    if at >= |json| || json[at] != '"' then ""
    else
      var end := Close(json, at + 1);
      if at + 1 <= end < |json| then json[at + 1..end] else ""
  }

  function ExtractString(json: string, key: string): string {
    var at := ValueAt(json, key);
    if at.None? then "" else StringAt(json, at.value)
  }

  method ExtractJsonString(json: string, key: string) returns (value: string)
    ensures value == ExtractString(json, key)
  {
    var at := LocateValue(json, key);
    if at.None? {
      return "";
    }
    value := ScanString(json, at.value);
  }

  method ScanString(json: string, pos: nat) returns (value: string)
    ensures value == StringAt(json, pos)
  {
    if pos >= |json| || json[pos] != '"' {
      return "";
    }
    var start := pos + 1;
    var end := start;
    while end < |json|
      invariant start <= end && Close(json, end) == Close(json, start)
    {
      if json[end] == '\\' {
        end := end + 2;
        continue;
      }
      if json[end] == '"' {
        break;
      }
      end := end + 1;
    }
    if end >= |json| {
      return "";
    }
    return json[start..end];
  }

  /** A string value behind its key is extracted exactly as it was escaped. */
  lemma ExtractsEscaped(json: string, key: string, raw: string)
    requires var at := ValueAt(json, key);
             && at.Some? && At(json, "\"" + Escape(raw) + "\"", at.value)
    ensures ExtractString(json, key) == Escape(raw)
    ensures Unescape(ExtractString(json, key)) == Some(raw)
  {
    StringAtEscaped(json, ValueAt(json, key).value, raw);
    UnescapeInvertsEscape(raw);
  }

  lemma StringAtEscaped(json: string, at: nat, raw: string)
    requires At(json, "\"" + Escape(raw) + "\"", at)
    ensures StringAt(json, at) == Escape(raw)
  {
    QuotedAt(json, at, Escape(raw));
    ScanFindsClosingQuote(json, at + 1, raw);
  }

  lemma QuotedAt(json: string, at: nat, e: string)
    requires At(json, "\"" + e + "\"", at)
    ensures at + 1 + |e| < |json| && json[at] == '"' && json[at + 1 + |e|] == '"'
    ensures json[at + 1..at + 1 + |e|] == e
  {
    var quoted := "\"" + e + "\"";
    assert forall k :: 0 <= k < |quoted| ==> json[at + k] == json[at..at + |quoted|][k] == quoted[k];
    assert json[at + 1..at + 1 + |e|] == json[at..at + |quoted|][1..1 + |e|];
  }

  /** What is not a quoted string reads as empty: no key, no quote, or no closing quote. */
  lemma NoStringIsEmpty(json: string, key: string)
    ensures var at := ValueAt(json, key);
            at.None? || at.value >= |json| || json[at.value] != '"' || Close(json, at.value + 1) >= |json| ==>
              ExtractString(json, key) == ""
  {
  }

  // ---- Integers -------------------------------------------------------------------------

  predicate IsDigit(c: char) {
    '0' <= c <= '9'
  }

  /** Digits read from the left into an int64; `None` when it overflows. */
  function Accumulate(digits: string): Option<int>
    requires forall i :: 0 <= i < |digits| ==> IsDigit(digits[i])
    decreases |digits|
  {
    if digits == "" then Some(0)
    else
      var k := |digits| - 1;
      var val := Accumulate(digits[..k]);
      if val.None? then None
      else
        var next := val.value * 10 + (digits[k] as int - '0' as int);
        if next > INT64_MAX then None else Some(next)
  }

  /** The end of the run of digits at `i`. */
  function DigitsEnd(json: string, i: nat): (j: nat)
    ensures i <= j && (j <= |json| || j == i)
    ensures forall k :: i <= k < j ==> k < |json| && IsDigit(json[k])
    decreases |json| - i
  {
    if i < |json| && IsDigit(json[i]) then DigitsEnd(json, i + 1) else i
  }

  /** The integer at a position: an optional minus and digits; `None` when int64 overflows on the way. */
  function IntAt(json: string, i: nat): Option<int>
    requires i <= |json|
  {
    var negative := i < |json| && json[i] == '-';
    var start := if negative then i + 1 else i;
    var val := Accumulate(json[start..DigitsEnd(json, start)]);
    if val.None? then None else Some(if negative then -val.value else val.value)
  }

  function ExtractInt(json: string, key: string): Option<int> {
    var at := ValueAt(json, key);
    if at.None? then Some(0) else IntAt(json, at.value)
  }

  method ExtractJsonInt(json: string, key: string) returns (value: Option<int>)
    ensures value == ExtractInt(json, key)
  {
    var at := LocateValue(json, key);
    if at.None? {
      return Some(0);
    }
    value := ScanInt(json, at.value);
  }

  method ScanInt(json: string, at: nat) returns (value: Option<int>)
    requires at <= |json|
    ensures value == IntAt(json, at)
  {
    var i := at;
    var negative := false;
    if i < |json| && json[i] == '-' {
      negative := true;
      i := i + 1;
    }
    var val := ScanDigits(json, i);
    if val.None? {
      return None;
    }
    return Some(if negative then -val.value else val.value);
  }

  /** The digit loop. Signed overflow is undefined in C++; here it ends the reading with `None`. */
  method ScanDigits(json: string, start: nat) returns (value: Option<int>)
    requires start <= |json|
    ensures value == Accumulate(json[start..DigitsEnd(json, start)])
  {
    var i, val := start, 0;
    while i < |json| && IsDigit(json[i])
      invariant start <= i <= |json| && DigitsEnd(json, i) == DigitsEnd(json, start)
      invariant forall k :: start <= k < i ==> IsDigit(json[k])
      invariant Accumulate(json[start..i]) == Some(val)
    {
      var next := val * 10 + (json[i] as int - '0' as int);
      ReadsDigit(json, start, i, val);
      if next > INT64_MAX {
        return None;
      }
      val := next;
      i := i + 1;
    }
    return Some(val);
  }

  /** One more digit: the value grows, or the whole run of digits overflows. */
  lemma ReadsDigit(json: string, start: nat, i: nat, val: int)
    requires start <= i < |json| && IsDigit(json[i]) && DigitsEnd(json, i) == DigitsEnd(json, start)
    requires (forall k :: start <= k < i ==> IsDigit(json[k])) && Accumulate(json[start..i]) == Some(val)
    ensures var next := val * 10 + (json[i] as int - '0' as int);
            if next <= INT64_MAX then Accumulate(json[start..i + 1]) == Some(next)
            else Accumulate(json[start..DigitsEnd(json, start)]) == None
  {
    var run, longer := json[start..DigitsEnd(json, start)], json[start..i + 1];
    assert longer[..i - start] == json[start..i] && longer[i - start] == json[i];
    assert longer == run[..i + 1 - start];
    if Accumulate(longer) == None {
      OverflowStays(longer, run);
    }
  }

  /** Once the digits read overflow, more digits do not help. */
  lemma {:induction false} OverflowStays(prefix: string, digits: string)
    requires prefix <= digits && forall i :: 0 <= i < |digits| ==> IsDigit(digits[i])
    requires Accumulate(prefix) == None
    ensures Accumulate(digits) == None
    decreases |digits|
  {
    if |prefix| < |digits| {
      OverflowStays(prefix, digits[..|digits| - 1]);
    } else {
      assert prefix == digits;
    }
  }

  /** A missing key reads as zero, and so does a value without digits. */
  lemma NoIntIsZero(json: string, key: string)
    ensures var at := ValueAt(json, key);
            at.None? || at.value >= |json| || (json[at.value] != '-' && !IsDigit(json[at.value])) ==>
              ExtractInt(json, key) == Some(0)
  {
  }

  function Digits(n: nat): (d: string)
    ensures d != "" && forall i :: 0 <= i < |d| ==> IsDigit(d[i])
  {
    if n < 10 then [('0' as int + n) as char] else Digits(n / 10) + [('0' as int + n % 10) as char]
  }

  /** The decimal form `std::to_string` and Go's encoder write. */
  function Decimal(n: int): string {
    if n < 0 then "-" + Digits(-n) else Digits(n)
  }

  /** Reading back the digits of a number yields the number, unless it exceeds int64. */
  lemma {:induction false} AccumulateDigits(n: nat)
    ensures Accumulate(Digits(n)) == if n <= INT64_MAX then Some(n) else None
  {
    var d := Digits(n);
    if n < 10 {
      assert Accumulate(d[..0]) == Some(0);
    } else {
      AccumulateDigits(n / 10);
      assert d[..|d| - 1] == Digits(n / 10);
    }
  }

  lemma {:induction false} DigitsEndAfter(json: string, i: nat, n: nat)
    requires i + n <= |json| && (forall k :: i <= k < i + n ==> IsDigit(json[k]))
    requires i + n < |json| ==> !IsDigit(json[i + n])
    ensures DigitsEnd(json, i) == i + n
    decreases n
  {
    if n > 0 {
      DigitsEndAfter(json, i + 1, n - 1);
    }
  }

  /**
   The decimal form of a number, followed by anything but a digit, is read back
   as that number exactly when its magnitude is below 2^63; the smallest int64
   is the one value the reader cannot take.
   */
  lemma IntOfDecimal(json: string, at: nat, n: int)
    requires At(json, Decimal(n), at)
    requires at + |Decimal(n)| < |json| ==> !IsDigit(json[at + |Decimal(n)|])
    ensures IntAt(json, at) == if Abs(n) <= INT64_MAX then Some(n) else None
  {
    var d, digits := Decimal(n), Digits(Abs(n));
    var start := if n < 0 then at + 1 else at;
    assert json[at..at + |d|] == d;
    assert json[at] == d[0];
    assert json[start..start + |digits|] == digits by {
      assert json[start..start + |digits|] == d[start - at..];
    }
    forall k | start <= k < start + |digits|
      ensures IsDigit(json[k])
    {
      assert json[k] == json[start..start + |digits|][k - start];
    }
    DigitsEndAfter(json, start, |digits|);
    AccumulateDigits(Abs(n));
  }

  /** The smallest int64 is what the client cannot read: negating comes after the digits. */
  lemma SmallestIsNotRead()
    ensures IntAt(Decimal(-INT64_MAX - 1), 0) == None
  {
    var json := Decimal(-INT64_MAX - 1);
    assert json[0..|json|] == json;
    IntOfDecimal(json, 0, -INT64_MAX - 1);
  }

  // ---- The offset message -----------------------------------------------------------------

  const TYPE_KEY := "\"type\""
  const OFFSET_KEY := "\"offset_us\""
  const OFFSET_TYPE := "\"CLOCK_OFFSET\""

  function TypePart(): string {
    "{" + TYPE_KEY + ":" + OFFSET_TYPE + ","
  }

  function OffsetPart(decimal: string): string {
    OFFSET_KEY + ":" + decimal + "}"
  }

  /** The CLOCK_OFFSET message as the server's encoder writes it. */
  function OffsetMessage(offsetUs: int): string {
    TypePart() + OffsetPart(Decimal(offsetUs))
  }

  /** Where the parts of the message are. */
  lemma MessageParts(offsetUs: int)
    ensures var json, d := OffsetMessage(offsetUs), Decimal(offsetUs);
            && json[0] == '{' && At(json, TYPE_KEY, 1) && At(json, ":", 7)
            && At(json, OFFSET_TYPE, 8) && json[22] == ','
            && At(json, OFFSET_KEY, 23) && At(json, ":", 34) && At(json, d, 35) && json[35 + |d|] == '}'
            && |json| == 36 + |d|
  {
    FirstHalf(OffsetPart(Decimal(offsetUs)));
    SecondHalf(TypePart(), Decimal(offsetUs));
  }

  lemma FirstHalf(rest: string)
    ensures var json := TypePart() + rest;
            && json[0] == '{' && At(json, TYPE_KEY, 1) && At(json, ":", 7)
            && At(json, OFFSET_TYPE, 8) && json[22] == ','
  {
    var a, json := TypePart(), TypePart() + rest;
    assert json[..23] == a;
    assert json[1..7] == a[1..7] == TYPE_KEY && json[7..8] == a[7..8] == ":" && json[8..22] == a[8..22] == OFFSET_TYPE;
  }

  lemma SecondHalf(a: string, d: string)
    requires |a| == 23
    ensures var json := a + OffsetPart(d);
            && At(json, OFFSET_KEY, 23) && At(json, ":", 34) && At(json, d, 35)
            && |json| == 36 + |d| && json[35 + |d|] == '}'
  {
    var b, json := OffsetPart(d), a + OffsetPart(d);
    assert json[23..] == b;
    assert json[23..34] == b[..11] == OFFSET_KEY && json[34..35] == b[11..12] == ":";
    assert json[35..35 + |d|] == b[12..12 + |d|] == d;
  }

  lemma FirstAt(json: string, key: string, p: nat)
    requires At(json, key, p) && forall q :: 0 <= q < p ==> !At(json, key, q)
    ensures Find(json, key, 0) == Some(p)
  {
  }

  /** Two different leading characters rule an occurrence out. */
  lemma NotAt(json: string, key: string, q: nat)
    requires |key| >= 2 && q + 1 < |json| && (json[q] != key[0] || json[q + 1] != key[1])
    ensures !At(json, key, q)
  {
    if q + |key| <= |json| {
      assert json[q..q + |key|][0] == json[q] && json[q..q + |key|][1] == json[q + 1];
    }
  }

  /** In front of the offset key no quote is followed by its first letter. */
  lemma OffsetKeyIsFirst(offsetUs: int, q: nat)
    requires q < 23
    ensures !At(OffsetMessage(offsetUs), OFFSET_KEY, q)
  {
    var json := OffsetMessage(offsetUs);
    MessageParts(offsetUs);
    if 1 <= q < 7 {
      assert json[q] == json[1..7][q - 1];
      assert json[q + 1] == if q < 6 then json[1..7][q] else json[7..8][0];
    } else if q == 7 {
      assert json[7] == json[7..8][0];
    } else if 8 <= q < 22 {
      assert json[q] == json[8..22][q - 8];
      assert q < 21 ==> json[q + 1] == json[8..22][q - 7];
    }
    NotAt(json, OFFSET_KEY, q);
  }

  lemma KeyPositions(offsetUs: int)
    ensures ValueAt(OffsetMessage(offsetUs), TYPE_KEY) == Some(8)
    ensures ValueAt(OffsetMessage(offsetUs), OFFSET_KEY) == Some(35)
  {
    var json, d := OffsetMessage(offsetUs), Decimal(offsetUs);
    MessageParts(offsetUs);
    NotAt(json, TYPE_KEY, 0);
    FirstAt(json, TYPE_KEY, 1);
    forall q | 0 <= q < 23
      ensures !At(json, OFFSET_KEY, q)
    {
      OffsetKeyIsFirst(offsetUs, q);
    }
    FirstAt(json, OFFSET_KEY, 23);
    assert json[8] == json[8..22][0] && json[35] == json[35..35 + |d|][0] == d[0];
  }

  /** The client reads from the server's message the type and exactly the offset sent. */
  lemma OffsetMessageReadBack(offsetUs: int)
    requires Abs(offsetUs) <= INT64_MAX
    ensures ExtractString(OffsetMessage(offsetUs), TYPE_KEY) == "CLOCK_OFFSET"
    ensures ExtractInt(OffsetMessage(offsetUs), OFFSET_KEY) == Some(offsetUs)
  {
    KeyPositions(offsetUs);
    MessageParts(offsetUs);
    TypeReadBack(OffsetMessage(offsetUs));
    OffsetReadBack(OffsetMessage(offsetUs), offsetUs);
  }

  lemma TypeReadBack(json: string)
    requires ValueAt(json, TYPE_KEY) == Some(8) && At(json, OFFSET_TYPE, 8)
    ensures ExtractString(json, TYPE_KEY) == "CLOCK_OFFSET"
  {
    assert OFFSET_TYPE == "\"" + "CLOCK_OFFSET" + "\"";
    PlainReadBack(json, TYPE_KEY, "CLOCK_OFFSET");
  }

  lemma PlainReadBack(json: string, key: string, name: string)
    requires forall i :: 0 <= i < |name| ==> 'A' <= name[i] <= '_' && name[i] != '\\'
    requires var at := ValueAt(json, key); at.Some? && At(json, "\"" + name + "\"", at.value)
    ensures ExtractString(json, key) == name
  {
    PlainEscape(name);
    ExtractsEscaped(json, key, name);
  }

  lemma OffsetReadBack(json: string, offsetUs: int)
    requires ValueAt(json, OFFSET_KEY) == Some(35) && At(json, Decimal(offsetUs), 35)
    requires var end := 35 + |Decimal(offsetUs)|; end < |json| && json[end] == '}'
    requires Abs(offsetUs) <= INT64_MAX
    ensures ExtractInt(json, OFFSET_KEY) == Some(offsetUs)
  {
    IntOfDecimal(json, 35, offsetUs);
  }

  lemma {:induction false} PlainEscape(s: string)
    requires forall i :: 0 <= i < |s| ==> 'A' <= s[i] <= '_' && s[i] != '\\'
    ensures Escape(s) == s
  {
    if s != "" {
      PlainEscape(s[1..]);
      assert EscapeChar(s[0]) == [s[0]] && [s[0]] + s[1..] == s;
    }
  }
}
