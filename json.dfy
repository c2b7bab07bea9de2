/**
 * The JSON text that Hutool's JSONUtil.toJsonStr writes into Redis and that
 * JSONUtil.toBean reads back, for the two shapes the shop service stores:
 *
 *   Shop       {"id":<int or null>,"name":<string or null>}
 *   RedisData  {"data":<Shop or null>,"expireTime":<int>}
 *
 * Decoding is strict: text that is not exactly one of these shapes does not
 * decode. The round trips Decode(Encode(x)) == Some(x) are proved here.
 */
module Json {
  import opened Wrappers
  import opened Text
  import opened Shops

  // ---- literals -----------------------------------------------------------

  const NullLit: string := "null"

  /** The rest of s after the literal lit, when s starts with lit. */
  function Expect(lit: string, s: string): (r: Option<string>)
    ensures r.Some? ==> |lit| <= |s| && s[..|lit|] == lit && r.value == s[|lit|..]
  {
    if |lit| <= |s| && s[..|lit|] == lit then Some(s[|lit|..]) else None
  }

  lemma ExpectLit(lit: string, rest: string)
    ensures Expect(lit, lit + rest) == Some(rest)
  {
    assert (lit + rest)[..|lit|] == lit;
    assert (lit + rest)[|lit|..] == rest;
  }

  /** A literal is not found at the head of text whose character i differs from it. */
  lemma ExpectMismatch(lit: string, s: string, i: nat)
    requires i < |lit| && i < |s| && s[i] != lit[i]
    ensures Expect(lit, s) == None
  {
    if |lit| <= |s| {
      assert s[..|lit|][i] == s[i] != lit[i];
    }
  }

  // ---- numbers ------------------------------------------------------------

  predicate IsDigit(c: char) {
    '0' <= c <= '9'
  }

  predicate AllDigits(d: string) {
    forall i :: 0 <= i < |d| ==> IsDigit(d[i])
  }

  function DigitChar(v: nat): (c: char)
    requires v < 10
    ensures IsDigit(c)
  {
    ('0' as int + v) as char
  }

  function DigitValue(c: char): (v: nat)
    requires IsDigit(c)
    ensures v < 10 && DigitChar(v) == c
  {
    c as int - '0' as int
  }

  /** Decimal digits of n, most significant first, without leading zeros. */
  function EncodeNat(n: nat): (r: string)
    ensures |r| > 0 && AllDigits(r)
    decreases n
  {
    if n < 10 then [DigitChar(n)] else EncodeNat(n / 10) + [DigitChar(n % 10)]
  }

  /** The number a string of decimal digits denotes. */
  function DigitsValue(d: string): nat
    requires AllDigits(d)
  {
    if d == [] then 0 else DigitsValue(d[..|d| - 1]) * 10 + DigitValue(d[|d| - 1])
  }

  lemma {:induction false} DigitsValueOfEncodeNat(n: nat)
    ensures DigitsValue(EncodeNat(n)) == n
    decreases n
  {
    if n >= 10 {
      var d := EncodeNat(n);
      assert d[..|d| - 1] == EncodeNat(n / 10);
      DigitsValueOfEncodeNat(n / 10);
    }
  }

  /** The length of the run of digits at the head of s. */
  function DigitSpan(s: string): (k: nat)
    ensures k <= |s| && AllDigits(s[..k])
    ensures k < |s| ==> !IsDigit(s[k])
  {
    if |s| > 0 && IsDigit(s[0]) then 1 + DigitSpan(s[1..]) else 0
  }

  lemma {:induction false} DigitSpanOfDigits(d: string, rest: string)
    requires AllDigits(d)
    requires rest == [] || !IsDigit(rest[0])
    ensures DigitSpan(d + rest) == |d|
  {
    if d == [] {
      assert d + rest == rest;
    } else {
      assert (d + rest)[0] == d[0];
      assert (d + rest)[1..] == d[1..] + rest;
      DigitSpanOfDigits(d[1..], rest);
    }
  }

  function ParseNat(s: string): (r: Option<(nat, string)>)
    ensures r.Some? ==> |r.value.1| < |s|
  {
    var k := DigitSpan(s);
    if k == 0 then None else Some((DigitsValue(s[..k]), s[k..]))
  }

  lemma ParseNatOfEncode(n: nat, rest: string)
    requires rest == [] || !IsDigit(rest[0])
    ensures ParseNat(EncodeNat(n) + rest) == Some((n, rest))
  {
    var d := EncodeNat(n);
    DigitSpanOfDigits(d, rest);
    assert (d + rest)[..|d|] == d;
    assert (d + rest)[|d|..] == rest;
    DigitsValueOfEncodeNat(n);
  }

  /** A Java long as JSON: an optional minus sign and decimal digits. */
  function EncodeInt(n: int): (r: string)
    ensures |r| > 0 && (r[0] == '-' || IsDigit(r[0]))
  {
    if n < 0 then "-" + EncodeNat(-n) else EncodeNat(n)
  }

  function ParseInt(s: string): Option<(int, string)> {
    if |s| > 0 && s[0] == '-' then
      match ParseNat(s[1..])
      case None => None
      case Some((v, rest)) => Some((-(v as int), rest))
    else
      match ParseNat(s)
      case None => None
      case Some((v, rest)) => Some((v as int, rest))
  }

  lemma ParseIntOfEncode(n: int, rest: string)
    requires rest == [] || !IsDigit(rest[0])
    ensures ParseInt(EncodeInt(n) + rest) == Some((n, rest))
  {
    if n < 0 {
      var s := EncodeInt(n) + rest;
      assert s == "-" + (EncodeNat(-n) + rest);
      assert s[1..] == EncodeNat(-n) + rest;
      ParseNatOfEncode(-n, rest);
    } else {
      var d := EncodeNat(n);
      assert (d + rest)[0] == d[0];
      ParseNatOfEncode(n, rest);
    }
  }

  // ---- strings ------------------------------------------------------------

  /** The body of a JSON string: quote and backslash are escaped by a backslash. */
  function EscapeChar(c: char): string {
    if c == '"' || c == '\\' then ['\\', c] else [c]
  }

  function Escape(s: string): string {
    if s == [] then [] else EscapeChar(s[0]) + Escape(s[1..])
  }

  function EncodeStr(s: string): (r: string)
    ensures |r| > 0 && r[0] == '"'
  {
    "\"" + Escape(s) + "\""
  }

  /** Reads a string body up to its closing quote; the rest follows the quote. */
  function ParseStrBody(s: string): Option<(string, string)>
    decreases |s|
  {
    if s == [] then None
    else if s[0] == '"' then Some(([], s[1..]))
    else if s[0] == '\\' then
      if |s| < 2 then None
      else match ParseStrBody(s[2..])
           case None => None
           case Some((t, rest)) => Some(([s[1]] + t, rest))
    else
      match ParseStrBody(s[1..])
      case None => None
      case Some((t, rest)) => Some(([s[0]] + t, rest))
  }

  lemma {:induction false} ParseStrBodyOfEscape(t: string, rest: string)
    ensures ParseStrBody(Escape(t) + ("\"" + rest)) == Some((t, rest))
  {
    var tail := "\"" + rest;
    if t == [] {
      assert Escape(t) + tail == tail;
      assert tail[1..] == rest;
    } else {
      var c, e := t[0], Escape(t[1..]) + tail;
      ParseStrBodyOfEscape(t[1..], rest);
      assert [c] + t[1..] == t;
      assert Escape(t) + tail == EscapeChar(c) + e;
      if c == '"' || c == '\\' {
        var s := ['\\', c] + e;
        assert s[0] == '\\' && s[1] == c && s[2..] == e;
      } else {
        var s := [c] + e;
        assert s[0] == c && s[1..] == e;
      }
    }
  }

  function ParseStr(s: string): Option<(string, string)> {
    if |s| > 0 && s[0] == '"' then ParseStrBody(s[1..]) else None
  }

  lemma ParseStrOfEncode(t: string, rest: string)
    ensures ParseStr(EncodeStr(t) + rest) == Some((t, rest))
  {
    var s := EncodeStr(t) + rest;
    assert s == "\"" + (Escape(t) + ("\"" + rest));
    assert s[1..] == Escape(t) + ("\"" + rest);
    ParseStrBodyOfEscape(t, rest);
  }

  // ---- nullable fields ----------------------------------------------------

  function EncodeOptInt(o: Option<int>): (r: string)
    ensures |r| > 0 && (r[0] == 'n' || r[0] == '-' || IsDigit(r[0]))
  {
    match o
    case None => NullLit
    case Some(n) => EncodeInt(n)
  }

  function ParseOptInt(s: string): Option<(Option<int>, string)> {
    match Expect(NullLit, s)
    case Some(rest) => Some((None, rest))
    case None =>
      match ParseInt(s)
      case None => None
      case Some((n, rest)) => Some((Some(n), rest))
  }

  lemma ParseOptIntOfEncode(o: Option<int>, rest: string)
    requires rest == [] || !IsDigit(rest[0])
    ensures ParseOptInt(EncodeOptInt(o) + rest) == Some((o, rest))
  {
    match o
    case None => ExpectLit(NullLit, rest);
    case Some(n) =>
      var s := EncodeOptInt(o) + rest;
      assert s[0] == EncodeInt(n)[0];
      ExpectMismatch(NullLit, s, 0);
      ParseIntOfEncode(n, rest);
  }

  function EncodeOptStr(o: Option<string>): (r: string)
    ensures |r| > 0 && (r[0] == 'n' || r[0] == '"')
  {
    match o
    case None => NullLit
    case Some(t) => EncodeStr(t)
  }

  function ParseOptStr(s: string): Option<(Option<string>, string)> {
    match Expect(NullLit, s)
    case Some(rest) => Some((None, rest))
    case None =>
      match ParseStr(s)
      case None => None
      case Some((t, rest)) => Some((Some(t), rest))
  }

  lemma ParseOptStrOfEncode(o: Option<string>, rest: string)
    ensures ParseOptStr(EncodeOptStr(o) + rest) == Some((o, rest))
  {
    match o
    case None => ExpectLit(NullLit, rest);
    case Some(t) =>
      var s := EncodeOptStr(o) + rest;
      assert s[0] == '"';
      ExpectMismatch(NullLit, s, 0);
      ParseStrOfEncode(t, rest);
  }

  // ---- Shop ---------------------------------------------------------------

  const ShopOpen: string := "{\"id\":"
  const ShopName: string := ",\"name\":"
  const Close: string := "}"

  function EncodeShop(x: Shop): (r: string)
    ensures |r| > |ShopOpen| && r[..|ShopOpen|] == ShopOpen
  {
    ShopOpen + EncodeOptInt(x.id) + ShopName + EncodeOptStr(x.name) + Close
  }

  function ParseShop(s: string): Option<(Shop, string)> {
    match Expect(ShopOpen, s)
    case None => None
    case Some(s1) =>
      match ParseOptInt(s1)
      case None => None
      case Some((id, s2)) =>
        match Expect(ShopName, s2)
        case None => None
        case Some(s3) =>
          match ParseOptStr(s3)
          case None => None
          case Some((name, s4)) =>
            match Expect(Close, s4)
            case None => None
            case Some(s5) => Some((Shop(id, name), s5))
  }

  lemma ParseShopOfEncode(x: Shop, rest: string)
    ensures ParseShop(EncodeShop(x) + rest) == Some((x, rest))
  {
    var a, b, c, d := EncodeOptInt(x.id), ShopName, EncodeOptStr(x.name), Close;
    assert EncodeShop(x) + rest == ShopOpen + (a + (b + (c + (d + rest))));
    ExpectLit(ShopOpen, a + (b + (c + (d + rest))));
    ParseOptIntOfEncode(x.id, b + (c + (d + rest)));
    ExpectLit(b, c + (d + rest));
    ParseOptStrOfEncode(x.name, d + rest);
    ExpectLit(d, rest);
  }

  /** A Shop or null, as toJsonStr writes a possibly-null shop. */
  function EncodeOptShop(o: Option<Shop>): (r: string)
    ensures |r| > 0 && (r[0] == 'n' || r[0] == '{')
  {
    match o
    case None => NullLit
    case Some(x) => EncodeShop(x)
  }

  function ParseOptShop(s: string): Option<(Option<Shop>, string)> {
    match Expect(NullLit, s)
    case Some(rest) => Some((None, rest))
    case None =>
      match ParseShop(s)
      case None => None
      case Some((x, rest)) => Some((Some(x), rest))
  }

  lemma ParseOptShopOfEncode(o: Option<Shop>, rest: string)
    ensures ParseOptShop(EncodeOptShop(o) + rest) == Some((o, rest))
  {
    match o
    case None => ExpectLit(NullLit, rest);
    case Some(x) =>
      var s := EncodeOptShop(o) + rest;
      assert s[0] == '{';
      ExpectMismatch(NullLit, s, 0);
      ParseShopOfEncode(x, rest);
  }

  /** JSONUtil.toBean(text, Shop.class). */
  function DecodeShop(s: string): Option<Shop> {
    match ParseShop(s)
    case Some((x, rest)) => if rest == [] then Some(x) else None
    case None => None
  }

  lemma {:induction false} DecodeShopOfEncode(x: Shop)
    ensures DecodeShop(EncodeShop(x)) == Some(x)
  {
    assert EncodeShop(x) + [] == EncodeShop(x);
    ParseShopOfEncode(x, []);
  }

  // ---- RedisData ----------------------------------------------------------

  const DataOpen: string := "{\"data\":"
  const ExpireField: string := ",\"expireTime\":"

  function EncodeRedisData(r: RedisData): (s: string)
    ensures |s| > 0 && s[0] == '{'
  {
    DataOpen + EncodeOptShop(r.data) + ExpireField + EncodeInt(r.expireTime) + Close
  }

  function ParseRedisData(s: string): Option<(RedisData, string)> {
    match Expect(DataOpen, s)
    case None => None
    case Some(s1) =>
      match ParseOptShop(s1)
      case None => None
      case Some((data, s2)) =>
        match Expect(ExpireField, s2)
        case None => None
        case Some(s3) =>
          match ParseInt(s3)
          case None => None
          case Some((t, s4)) =>
            match Expect(Close, s4)
            case None => None
            case Some(s5) => Some((RedisData(data, t), s5))
  }

  lemma ParseRedisDataOfEncode(r: RedisData, rest: string)
    ensures ParseRedisData(EncodeRedisData(r) + rest) == Some((r, rest))
  {
    var a, b, c, d := EncodeOptShop(r.data), ExpireField, EncodeInt(r.expireTime), Close;
    assert EncodeRedisData(r) + rest == DataOpen + (a + (b + (c + (d + rest))));
    ExpectLit(DataOpen, a + (b + (c + (d + rest))));
    ParseOptShopOfEncode(r.data, b + (c + (d + rest)));
    ExpectLit(b, c + (d + rest));
    ParseIntOfEncode(r.expireTime, d + rest);
    ExpectLit(d, rest);
  }

  /**
   * JSONUtil.toBean(text, RedisData.class) on what Redis returned; a missing
   * value does not decode.
   */
  function DecodeRedisData(s: Option<string>): Option<RedisData> {
    match s
    case None => None
    case Some(t) =>
      match ParseRedisData(t)
      case Some((r, rest)) => if rest == [] then Some(r) else None
      case None => None
  }

  lemma {:induction false} DecodeRedisDataOfEncode(r: RedisData)
    ensures DecodeRedisData(Some(EncodeRedisData(r))) == Some(r)
  {
    assert EncodeRedisData(r) + [] == EncodeRedisData(r);
    ParseRedisDataOfEncode(r, []);
  }

  // ---- what the lookups rely on -------------------------------------------

  /** Everything the service writes as JSON passes the isNotBlank test. */
  lemma EncodingsNotBlank(o: Option<Shop>, r: RedisData)
    ensures IsNotBlank(Some(EncodeOptShop(o)))
    ensures IsNotBlank(Some(EncodeRedisData(r)))
  {
    NotBlankByFirst(EncodeOptShop(o));
    NotBlankByFirst(EncodeRedisData(r));
  }

  /** Blank text, the null marker among it, decodes neither as Shop nor as RedisData. */
  lemma {:induction false} BlankDoesNotDecode(s: string)
    requires IsBlank(s)
    ensures DecodeShop(s) == None
    ensures DecodeRedisData(Some(s)) == None
  {
    if |s| > 0 {
      BlankFirst(s);
      ExpectMismatch(ShopOpen, s, 0);
      ExpectMismatch(DataOpen, s, 0);
    }
  }

  /** The plain shop JSON (or null) that a lookup caches is not a RedisData. */
  lemma {:induction false} ShopJsonIsNotRedisData(o: Option<Shop>)
    ensures DecodeRedisData(Some(EncodeOptShop(o))) == None
  {
    var s := EncodeOptShop(o);
    match o
    case None =>
      ExpectMismatch(DataOpen, s, 0);
    case Some(x) =>
      assert s[2] == s[..|ShopOpen|][2] == 'i';
      ExpectMismatch(DataOpen, s, 2);
  }
}
