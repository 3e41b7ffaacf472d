/** The "status:body" values and the key names of internal/middleware/idempotency.go, and the merchant ids
    of internal/middleware/auth.go that go into them. Strings are sequences of characters. */
module CachedResponse {
  import opened Options

  const MARKER := "__PROCESSING__"
  const MIN_INT: int := -0x8000_0000_0000_0000
  const MAX_INT: int := 0x7FFF_FFFF_FFFF_FFFF

  // ---- strconv.Itoa and strconv.Atoi

  predicate IsDigit(c: char) {
    '0' <= c <= '9'
  }

  function Digit(n: nat): char
    requires n < 10
  {
    '0' + n as char
  }

  function Digits(n: nat): string {
    if n < 10 then [Digit(n)] else Digits(n / 10) + [Digit(n % 10)]
  }

  function Itoa(n: int): string {
    if n < 0 then "-" + Digits(-n) else Digits(n)
  }

  function ParseDigits(s: string): Option<nat> {
    if s == [] then Some(0)
    else
      var most, last := ParseDigits(s[..|s| - 1]), s[|s| - 1];
      if most.None? || !IsDigit(last) then None else Some(10 * most.value + (last as int - '0' as int))
  }

  /** None stands for a syntax or range error. */
  function Atoi(s: string): Option<int> {
    var negative := s != [] && s[0] == '-';
    var digits := if s != [] && (s[0] == '-' || s[0] == '+') then s[1..] else s;
    if digits == [] then None
    else
      var n := ParseDigits(digits);
      if n.None? then None
      else
        var size: int := n.value;
        var v := if negative then -size else size;
        if MIN_INT <= v <= MAX_INT then Some(v) else None
  }

  /** strings.Index(s, ":"), -1 if there is none. */
  function Index(s: string, c: char): (i: int)
    ensures -1 <= i < |s|
    ensures i == -1 ==> c !in s
    ensures 0 <= i ==> s[i] == c && c !in s[..i]
  {
    if s == [] then -1
    else if s[0] == c then 0
    else
      var i := Index(s[1..], c);
      assert i > -1 ==> s[..i + 1] == [s[0]] + s[1..][..i];
      if i == -1 then -1 else i + 1
  }

  function Encode(status: int, body: string): string {
    Itoa(status) + ":" + body
  }

  /** parseCachedResponse */
  function Parse(cached: string): (int, string) {
    var i := Index(cached, ':');
    if i <= 0 then (200, cached)
    else
      match Atoi(cached[..i])
      case None => (200, cached)
      case Some(code) => (code, cached[i + 1..])
  }

  // ---- Round trip

  lemma {:induction false} DigitsParse(n: nat)
    ensures ParseDigits(Digits(n)) == Some(n)
    ensures Digits(n) != [] && forall i :: 0 <= i < |Digits(n)| ==> IsDigit(Digits(n)[i])
    decreases n
  {
    if n < 10 {
      assert Digits(n)[..0] == [];
    } else {
      DigitsParse(n / 10);
      assert Digits(n)[..|Digits(n)| - 1] == Digits(n / 10);
    }
  }

  lemma SignedParses(digits: string, n: nat)
    requires ParseDigits(digits) == Some(n) && digits != [] && IsDigit(digits[0])
    ensures n <= MAX_INT ==> Atoi(digits) == Some(n as int)
    ensures var opposite: int := -(n as int); MIN_INT <= opposite ==> Atoi("-" + digits) == Some(opposite)
  {
    assert ("-" + digits)[1..] == digits;
  }

  lemma ItoaParses(n: int)
    requires MIN_INT <= n <= MAX_INT
    ensures Atoi(Itoa(n)) == Some(n) && Itoa(n) != [] && ':' !in Itoa(n)
  {
    var size: nat := if n < 0 then -n else n;
    DigitsParse(size);
    SignedParses(Digits(size), size);
  }

  lemma {:induction false} IndexAfter(prefix: string, rest: string, c: char)
    requires c !in prefix
    ensures Index(prefix + [c] + rest, c) == |prefix|
    decreases |prefix|
  {
    var s := prefix + [c] + rest;
    if prefix != [] {
      assert s[0] == prefix[0];
      assert s[1..] == prefix[1..] + [c] + rest;
      IndexAfter(prefix[1..], rest, c);
    }
  }

  /** Whatever the body contains, parsing a stored value gives back exactly the status and the body, and no
      stored value is the processing marker. */
  lemma ParseInvertsEncode(status: int, body: string)
    requires MIN_INT <= status <= MAX_INT
    ensures Parse(Encode(status, body)) == (status, body)
    ensures Encode(status, body) != MARKER
  {
    ItoaParses(status);
    var code, s := Itoa(status), Encode(status, body);
    IndexAfter(code, body, ':');
    assert s[..|code|] == code && s[|code| + 1..] == body;
    assert s[|code|] == ':';
    assert forall i :: 0 <= i < |MARKER| ==> MARKER[i] != ':';
  }

  /** A three-digit status is stored as its digits. */
  lemma StatusText(status: int, body: string)
    requires 100 <= status <= 999
    ensures Encode(status, body) ==
            ['0' + (status / 100) as char, '0' + (status / 10 % 10) as char, '0' + (status % 10) as char, ':'] + body
  {
    assert Digits(status / 10) == [Digit(status / 100), Digit(status / 10 % 10)];
  }

  lemma {:induction false} NotANumber(s: string, i: nat)
    requires i < |s| && !IsDigit(s[i])
    ensures ParseDigits(s).None?
    decreases |s|
  {
    if i < |s| - 1 {
      NotANumber(s[..|s| - 1], i);
    }
  }

  lemma NoNumberFails(prefix: string, i: nat)
    requires i < |prefix| && !IsDigit(prefix[i]) && prefix[i] != '+' && prefix[i] != '-'
    ensures Atoi(prefix).None?
  {
    if prefix[0] == '-' || prefix[0] == '+' {
      assert prefix[1..][i - 1] == prefix[i];
      NotANumber(prefix[1..], i - 1);
    } else {
      NotANumber(prefix, i);
    }
  }

  /** A value without a colon, or with nothing before it, is replayed whole with status 200. */
  lemma ParseWithoutStatus(cached: string)
    requires ':' !in cached || cached[0] == ':'
    ensures Parse(cached) == (200, cached)
  {
  }

  /** And so is one that does not start with a number. */
  lemma ParseFallsBack(prefix: string, i: nat, rest: string)
    requires ':' !in prefix && i < |prefix|
    requires !IsDigit(prefix[i]) && prefix[i] != '+' && prefix[i] != '-'
    ensures Parse(prefix + ":" + rest) == (200, prefix + ":" + rest)
  {
    IndexAfter(prefix, rest, ':');
    assert (prefix + ":" + rest)[..|prefix|] == prefix;
    NoNumberFails(prefix, i);
  }

  // ---- Redis keys

  function Namespace(merchant: string): string {
    if merchant == "" then "_anonymous" else merchant
  }

  function RedisKey(merchant: string, key: string): string {
    "idempotency:" + Namespace(merchant) + ":" + key
  }

  /** Keys of different merchants never meet, whatever the clients send, because merchant ids contain no colon;
      requests without a merchant share the namespace "_anonymous" with a merchant of that name. */
  lemma KeysAreInjective(m: string, k: string, m': string, k': string)
    requires ':' !in m && ':' !in m'
    ensures RedisKey(m, k) == RedisKey(m', k') <==>
              k == k' && (m == m' || (m == "" && m' == "_anonymous") || (m == "_anonymous" && m' == ""))
  {
    var n, n' := Namespace(m), Namespace(m');
    assert ':' !in "_anonymous";
    if RedisKey(m, k) == RedisKey(m', k') {
      SplitKey(n, k);
      SplitKey(n', k');
    }
  }

  lemma SplitKey(n: string, k: string)
    requires ':' !in n
    ensures var s := ("idempotency:" + n + ":" + k)[|"idempotency:"|..];
            && Index(s, ':') == |n| && s[..|n|] == n && s[|n| + 1..] == k
  {
    assert ("idempotency:" + n + ":" + k)[|"idempotency:"|..] == n + ":" + k;
    IndexAfter(n, k, ':');
  }

  // ---- ParseMerchantKeys

  datatype MerchantKey = MerchantKey(merchantID: string, apiKey: string)

  const ADMIN := "__admin__"

  /** unicode.IsSpace */
  predicate IsSpace(c: char) {
    || c == ' ' || ('\t' <= c <= '\r') || c == '\U{0085}' || c == '\U{00A0}' || c == '\U{1680}'
    || ('\U{2000}' <= c <= '\U{200A}') || c == '\U{2028}' || c == '\U{2029}' || c == '\U{202F}'
    || c == '\U{205F}' || c == '\U{3000}'
  }

  function TrimSpace(s: string): string {
    if s == [] then []
    else if IsSpace(s[0]) then TrimSpace(s[1..])
    else if IsSpace(s[|s| - 1]) then TrimSpace(s[..|s| - 1])
    else s
  }

  /** One configured key: "merchant:key", split at the first colon, or an admin key. */
  function ParseKey(raw: string): Option<MerchantKey> {
    var s := TrimSpace(raw);
    if s == "" then None
    else
      var i := Index(s, ':');
      if i > 0 then Some(MerchantKey(s[..i], s[i + 1..])) else Some(MerchantKey(ADMIN, s))
  }

  ghost predicate AllSpaces(s: string) {
    forall i :: 0 <= i < |s| ==> IsSpace(s[i])
  }

  ghost predicate Bare(s: string) {
    s != "" && !IsSpace(s[0]) && !IsSpace(s[|s| - 1])
  }

  /** Trimming takes the white space at both ends and nothing else. */
  lemma {:induction false} TrimStrips(left: string, s: string, right: string)
    requires AllSpaces(left) && AllSpaces(right) && Bare(s)
    ensures TrimSpace(left + s + right) == s
    decreases |left| + |right|
  {
    var whole := left + s + right;
    if left != [] {
      assert whole[0] == left[0] && whole[1..] == left[1..] + s + right;
      TrimStrips(left[1..], s, right);
    } else if right != [] {
      assert whole[0] == s[0] && whole[|whole| - 1] == right[|right| - 1];
      assert whole[..|whole| - 1] == left + s + right[..|right| - 1];
      TrimStrips(left, s, right[..|right| - 1]);
    } else {
      assert whole == s;
    }
  }

  lemma {:induction false} BlankTrims(s: string)
    requires AllSpaces(s)
    ensures TrimSpace(s) == ""
    decreases |s|
  {
    if s != [] {
      BlankTrims(s[1..]);
    }
  }

  /** A configured merchant key names the merchant before its first colon and has all that follows as its key. */
  lemma MerchantKeyParses(left: string, merchant: string, key: string, right: string)
    requires AllSpaces(left) && AllSpaces(right) && merchant != "" && ':' !in merchant
    requires Bare(merchant + ":" + key)
    ensures ParseKey(left + (merchant + ":" + key) + right) == Some(MerchantKey(merchant, key))
  {
    var s := merchant + ":" + key;
    TrimStrips(left, s, right);
    IndexAfter(merchant, key, ':');
    assert s[..|merchant|] == merchant && s[|merchant| + 1..] == key;
  }

  /** One without a colon, or with nothing before it, is an admin key as a whole; a blank one is none. */
  lemma OtherKeyParses(left: string, key: string, right: string)
    requires AllSpaces(left) && AllSpaces(right)
    ensures Bare(key) && (':' !in key || key[0] == ':') ==>
              ParseKey(left + key + right) == Some(MerchantKey("__admin__", key))
    ensures ParseKey(left) == None
  {
    BlankTrims(left);
    if Bare(key) {
      TrimStrips(left, key, right);
    }
  }

  function ParsedKeys(raw: seq<string>): seq<MerchantKey> {
    if raw == [] then []
    else
      var last := ParseKey(raw[|raw| - 1]);
      ParsedKeys(raw[..|raw| - 1]) + if last.Some? then [last.value] else []
  }

  lemma ParsedOneMore(rawKeys: seq<string>, n: nat)
    requires n < |rawKeys|
    ensures ParsedKeys(rawKeys[..n + 1]) ==
            ParsedKeys(rawKeys[..n]) + match ParseKey(rawKeys[n]) { case Some(key) => [key] case None => [] }
  {
    assert rawKeys[..n + 1][..n] == rawKeys[..n];
  }

  /** Every merchant id the service ever hands out is non-empty and has no colon, so the key lemma applies. */
  method ParseMerchantKeys(rawKeys: seq<string>) returns (keys: seq<MerchantKey>)
    ensures keys == ParsedKeys(rawKeys)
    ensures forall i :: 0 <= i < |keys| ==> keys[i].merchantID != "" && ':' !in keys[i].merchantID
  {
    keys := [];
    var n := 0;
    while n < |rawKeys|
      invariant 0 <= n <= |rawKeys|
      invariant keys == ParsedKeys(rawKeys[..n])
      invariant forall i :: 0 <= i < |keys| ==> keys[i].merchantID != "" && ':' !in keys[i].merchantID
    {
      ParsedOneMore(rawKeys, n);
      var raw := TrimSpace(rawKeys[n]);
      if raw != "" {
        var idx := Index(raw, ':');
        if idx > 0 {
          keys := keys + [MerchantKey(raw[..idx], raw[idx + 1..])];
        } else {
          keys := keys + [MerchantKey(ADMIN, raw)];
        }
      }
      n := n + 1;
    }
    assert rawKeys[..n] == rawKeys;
  }

  lemma {:induction false} ParsedIds(rawKeys: seq<string>)
    ensures forall i :: 0 <= i < |ParsedKeys(rawKeys)| ==>
              ParsedKeys(rawKeys)[i].merchantID != "" && ':' !in ParsedKeys(rawKeys)[i].merchantID
    decreases |rawKeys|
  {
    if rawKeys != [] {
      ParsedIds(rawKeys[..|rawKeys| - 1]);
      assert ':' !in ADMIN;
    }
  }

  /** For the merchant ids the service hands out, two requests share a Redis key exactly when merchant and
      idempotency key agree. */
  lemma MerchantsAreApart(rawKeys: seq<string>, i: nat, j: nat, k: string, k': string)
    requires i < |ParsedKeys(rawKeys)| && j < |ParsedKeys(rawKeys)|
    ensures var m, m' := ParsedKeys(rawKeys)[i].merchantID, ParsedKeys(rawKeys)[j].merchantID;
            RedisKey(m, k) == RedisKey(m', k') <==> m == m' && k == k'
  {
    ParsedIds(rawKeys);
    KeysAreInjective(ParsedKeys(rawKeys)[i].merchantID, k, ParsedKeys(rawKeys)[j].merchantID, k');
  }
}
