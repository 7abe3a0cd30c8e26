/** The sign-in forwarder mounted on every page: a PKCE `?code=` or an
    implicit-flow `#access_token=` / `#refresh_token=` fragment is sent on to
    `/confirm`, which finishes the sign-in. */
module HashRedirect {
  import opened Common

  /** The characters `encodeURIComponent` leaves as they are. */
  predicate Unreserved(c: char) {
    ('A' <= c <= 'Z') || ('a' <= c <= 'z') || ('0' <= c <= '9')
    || c == '-' || c == '_' || c == '.' || c == '!' || c == '~' || c == '*' || c == '\'' || c == '(' || c == ')'
  }

  /** The UTF-8 bytes of one Unicode scalar value. */
  function Utf8(c: char): (bytes: seq<int>)
    ensures 1 <= |bytes| <= 4
    ensures forall k :: 0 <= k < |bytes| ==> 0 <= bytes[k] < 256
    ensures (c as int < 0x80) <==> |bytes| == 1
  {
    var n := c as int;
    if n < 0x80 then [n]
    else if n < 0x800 then [0xC0 + n / 0x40, 0x80 + n % 0x40]
    else if n < 0x10000 then [0xE0 + n / 0x1000, 0x80 + (n / 0x40) % 0x40, 0x80 + n % 0x40]
    else [0xF0 + n / 0x40000, 0x80 + (n / 0x1000) % 0x40, 0x80 + (n / 0x40) % 0x40, 0x80 + n % 0x40]
  }

  /** An upper-case hexadecimal digit. */
  function HexDigit(d: int): (c: char)
    requires 0 <= d < 16
    ensures Unreserved(c)
  {
    if d < 10 then ('0' as int + d) as char else ('A' as int + d - 10) as char
  }

  /** `%XX` for one byte. */
  function PercentByte(b: int): (r: string)
    requires 0 <= b < 256
    ensures |r| == 3 && r[0] == '%' && Unreserved(r[1]) && Unreserved(r[2])
  {
    ['%', HexDigit(b / 16), HexDigit(b % 16)]
  }

  /** `%XX` for each byte, in order. */
  function PercentBytes(bytes: seq<int>): (r: string)
    requires forall k :: 0 <= k < |bytes| ==> 0 <= bytes[k] < 256
    ensures |r| == 3 * |bytes|
    ensures forall k :: 0 <= k < |r| ==> Unreserved(r[k]) || r[k] == '%'
  {
    if bytes == [] then [] else PercentByte(bytes[0]) + PercentBytes(bytes[1..])
  }

  /** The escape of one character: itself when unreserved, else `%XX` for
      each byte of its UTF-8 form. */
  function EncodeChar(c: char): (r: string)
    ensures |r| >= 1
    ensures forall k :: 0 <= k < |r| ==> Unreserved(r[k]) || r[k] == '%'
  {
    if Unreserved(c) then [c] else PercentBytes(Utf8(c))
  }

  /** `encodeURIComponent(s)` on a string of Unicode scalar values. */
  function EncodeUriComponent(s: string): (r: string)
    ensures |r| >= |s|
    ensures forall k :: 0 <= k < |r| ==> Unreserved(r[k]) || r[k] == '%'
  {
    if s == [] then [] else EncodeChar(s[0]) + EncodeUriComponent(s[1..])
  }

  /** Encoding works character by character. */
  lemma {:induction false} EncodeConcat(a: string, b: string)
    ensures EncodeUriComponent(a + b) == EncodeUriComponent(a) + EncodeUriComponent(b)
  {
    if a == [] {
      assert a + b == b;
    } else {
      assert (a + b)[0] == a[0] && (a + b)[1..] == a[1..] + b;
      EncodeConcat(a[1..], b);
    }
  }

  // ---------------------------------------------------------------------------
  // decodeURIComponent, the inverse the `/confirm` page applies

  /** The value of a hexadecimal digit of either case. */
  function HexValue(c: char): (v: Option<int>)
    ensures v.Some? ==> 0 <= v.value < 16
  {
    if '0' <= c <= '9' then Some(c as int - '0' as int)
    else if 'A' <= c <= 'F' then Some(c as int - 'A' as int + 10)
    else if 'a' <= c <= 'f' then Some(c as int - 'a' as int + 10)
    else None
  }

  /** The byte of a `%XX` escape at the start of `s`. */
  function EscapedByte(s: string): (b: Option<int>)
    ensures b.Some? ==> |s| >= 3 && s[0] == '%' && 0 <= b.value < 256
  {
    if |s| >= 3 && s[0] == '%' && HexValue(s[1]).Some? && HexValue(s[2]).Some?
    then Some(HexValue(s[1]).value * 16 + HexValue(s[2]).value)
    else None
  }

  /** The bytes of `n` consecutive escapes at the start of `s`. */
  function EscapedBytes(s: string, n: nat): (bs: Option<seq<int>>)
    ensures bs.Some? ==> |bs.value| == n && 3 * n <= |s|
    ensures bs.Some? ==> forall k :: 0 <= k < n ==> 0 <= bs.value[k] < 256
    decreases n
  {
    if n == 0 then Some([])
    else
      var b := EscapedByte(s);
      if b.None? then None
      else
        var rest := EscapedBytes(s[3..], n - 1);
        if rest.None? then None else Some([b.value] + rest.value)
  }

  /** The length of the UTF-8 sequence a lead byte opens; 0 for a byte that
      cannot open one. */
  function Utf8Length(lead: int): nat {
    if 0 <= lead < 0x80 then 1
    else if 0xC2 <= lead < 0xE0 then 2
    else if 0xE0 <= lead < 0xF0 then 3
    else if 0xF0 <= lead < 0xF5 then 4
    else 0
  }

  predicate Continuation(b: int) {
    0x80 <= b < 0xC0
  }

  /** The scalar value a complete UTF-8 sequence stands for; overlong forms,
      surrogates and values past U+10FFFF are refused. */
  function Utf8Decode(bs: seq<int>): (c: Option<char>)
    ensures c.Some? ==> 1 <= |bs| <= 4 && |Utf8(c.value)| == |bs|
  {
    if !(1 <= |bs| <= 4) || Utf8Length(bs[0]) != |bs| || exists k | 1 <= k < |bs| :: !Continuation(bs[k]) then None
    else
      var v := if |bs| == 1 then bs[0]
               else if |bs| == 2 then (bs[0] - 0xC0) * 0x40 + (bs[1] - 0x80)
               else if |bs| == 3 then (bs[0] - 0xE0) * 0x1000 + (bs[1] - 0x80) * 0x40 + (bs[2] - 0x80)
               else (bs[0] - 0xF0) * 0x40000 + (bs[1] - 0x80) * 0x1000 + (bs[2] - 0x80) * 0x40 + (bs[3] - 0x80);
      var least := if |bs| == 1 then 0 else if |bs| == 2 then 0x80 else if |bs| == 3 then 0x800 else 0x10000;
      var most := if |bs| == 1 then 0x80 else if |bs| == 2 then 0x800 else if |bs| == 3 then 0x10000 else 0x110000;
      if least <= v < most && !(0xD800 <= v < 0xE000) then Some(v as char) else None
  }

  /** `decodeURIComponent(s)`: every `%XX` run that spells a UTF-8 sequence
      becomes its character, every other character stays; a malformed escape
      is an error (`URIError`), here `None`. */
  function DecodeUriComponent(s: string): (r: Option<string>)
    decreases |s|
  {
    if s == [] then Some([])
    else if s[0] != '%' then
      var rest := DecodeUriComponent(s[1..]);
      if rest.None? then None else Some([s[0]] + rest.value)
    else
      var lead := EscapedByte(s);
      var n := if lead.None? then 0 else Utf8Length(lead.value);
      var bytes := if n == 0 then None else EscapedBytes(s, n);
      if bytes.None? then None
      else
        var c := Utf8Decode(bytes.value);
        if c.None? then None
        else
          var rest := DecodeUriComponent(s[3 * n..]);
          if rest.None? then None else Some([c.value] + rest.value)
  }

  lemma EscapedBytePercent(b: int, t: string)
    requires 0 <= b < 256
    ensures EscapedByte(PercentByte(b) + t) == Some(b)
  {
    var s := PercentByte(b) + t;
    assert s[1] == HexDigit(b / 16) && s[2] == HexDigit(b % 16);
  }

  lemma {:induction false} EscapedBytesPercent(bs: seq<int>, t: string)
    requires forall k :: 0 <= k < |bs| ==> 0 <= bs[k] < 256
    ensures EscapedBytes(PercentBytes(bs) + t, |bs|) == Some(bs)
  {
    if bs != [] {
      var s := PercentBytes(bs) + t;
      var tail := PercentBytes(bs[1..]) + t;
      assert s == PercentByte(bs[0]) + tail;
      EscapedBytePercent(bs[0], tail);
      assert s[3..] == tail;
      EscapedBytesPercent(bs[1..], t);
      assert [bs[0]] + bs[1..] == bs;
    }
  }

  /** The value a two-byte sequence stands for. */
  lemma Utf8Two(n: int)
    requires 0x80 <= n < 0x800
    ensures (0xC0 + n / 0x40 - 0xC0) * 0x40 + (0x80 + n % 0x40 - 0x80) == n
  {
  }

  /** The value a three-byte sequence stands for. */
  lemma Utf8Three(n: int)
    requires 0x800 <= n < 0x10000
    ensures (0xE0 + n / 0x1000 - 0xE0) * 0x1000 + (0x80 + (n / 0x40) % 0x40 - 0x80) * 0x40 + (0x80 + n % 0x40 - 0x80) == n
  {
    var q := n / 0x40;
    assert n == q * 0x40 + n % 0x40;
    assert q / 0x40 == n / 0x1000;
    assert q == (q / 0x40) * 0x40 + q % 0x40;
  }

  /** The value a four-byte sequence stands for. */
  lemma Utf8Four(n: int)
    requires 0x10000 <= n < 0x110000
    ensures (0xF0 + n / 0x40000 - 0xF0) * 0x40000 + (0x80 + (n / 0x1000) % 0x40 - 0x80) * 0x1000
            + (0x80 + (n / 0x40) % 0x40 - 0x80) * 0x40 + (0x80 + n % 0x40 - 0x80) == n
  {
    var q := n / 0x40;
    var p := q / 0x40;
    assert n == q * 0x40 + n % 0x40;
    assert q == p * 0x40 + q % 0x40;
    assert p == n / 0x1000;
    assert p == (p / 0x40) * 0x40 + p % 0x40;
    assert p / 0x40 == n / 0x40000;
  }

  /** Decoding the UTF-8 bytes of a character gives the character back. */
  lemma Utf8RoundTrip(c: char)
    ensures Utf8Length(Utf8(c)[0]) == |Utf8(c)|
    ensures Utf8Decode(Utf8(c)) == Some(c)
  {
    var n := c as int;
    var bs := Utf8(c);
    if n < 0x80 {
      assert bs == [n];
    } else if n < 0x800 {
      Utf8Two(n);
      assert bs == [0xC0 + n / 0x40, 0x80 + n % 0x40];
      assert forall k | 1 <= k < |bs| :: Continuation(bs[k]);
    } else if n < 0x10000 {
      Utf8Three(n);
      assert bs == [0xE0 + n / 0x1000, 0x80 + (n / 0x40) % 0x40, 0x80 + n % 0x40];
      assert forall k | 1 <= k < |bs| :: Continuation(bs[k]);
    } else {
      Utf8Four(n);
      assert bs == [0xF0 + n / 0x40000, 0x80 + (n / 0x1000) % 0x40, 0x80 + (n / 0x40) % 0x40, 0x80 + n % 0x40];
      assert forall k | 1 <= k < |bs| :: Continuation(bs[k]);
    }
  }

  /** Prepend `c` to a decoding, keeping a failure. */
  function Cons(c: char, r: Option<string>): Option<string> {
    if r.None? then None else Some([c] + r.value)
  }

  /** A character other than `%` decodes to itself. */
  lemma DecodePlain(c: char, t: string)
    requires c != '%'
    ensures DecodeUriComponent([c] + t) == Cons(c, DecodeUriComponent(t))
  {
    assert ([c] + t)[1..] == t;
  }

  /** A non-empty run of escapes starts with the first byte's escape. */
  lemma EscapedHead(bs: seq<int>, t: string)
    requires |bs| > 0 && forall k :: 0 <= k < |bs| ==> 0 <= bs[k] < 256
    ensures EscapedByte(PercentBytes(bs) + t) == Some(bs[0])
  {
    var tail := PercentBytes(bs[1..]) + t;
    assert PercentBytes(bs) + t == PercentByte(bs[0]) + tail;
    EscapedBytePercent(bs[0], tail);
  }

  /** What follows a run of escapes is untouched. */
  lemma EscapedTail(bs: seq<int>, t: string)
    requires forall k :: 0 <= k < |bs| ==> 0 <= bs[k] < 256
    ensures (PercentBytes(bs) + t)[3 * |bs|..] == t
  {
    var p := PercentBytes(bs);
    assert (p + t)[|p|..] == t;
  }

  /** One decoding step over a run of escapes that spells `c`. */
  lemma DecodeRun(e: string, bs: seq<int>, c: char)
    requires |e| > 0 && e[0] == '%' && |bs| > 0
    requires EscapedByte(e) == Some(bs[0]) && Utf8Length(bs[0]) == |bs|
    requires EscapedBytes(e, |bs|) == Some(bs) && Utf8Decode(bs) == Some(c)
    ensures DecodeUriComponent(e) == Cons(c, DecodeUriComponent(e[3 * |bs|..]))
  {
  }

  /** The escapes of a character's UTF-8 bytes decode to that character. */
  lemma DecodeEscaped(c: char, t: string)
    ensures DecodeUriComponent(PercentBytes(Utf8(c)) + t) == Cons(c, DecodeUriComponent(t))
  {
    var bs := Utf8(c);
    Utf8RoundTrip(c);
    EscapedBytesPercent(bs, t);
    EscapedHead(bs, t);
    EscapedTail(bs, t);
    DecodeRun(PercentBytes(bs) + t, bs, c);
  }

  /** `decodeURIComponent(encodeURIComponent(s)) == s`: the `/confirm` page
      reads back exactly the code that was forwarded. */
  lemma {:induction false} DecodeEncode(s: string)
    ensures DecodeUriComponent(EncodeUriComponent(s)) == Some(s)
  {
    if s != [] {
      var rest := EncodeUriComponent(s[1..]);
      DecodeEncode(s[1..]);
      if Unreserved(s[0]) {
        DecodePlain(s[0], rest);
      } else {
        DecodeEscaped(s[0], rest);
      }
      assert [s[0]] + s[1..] == s;
    }
  }

  /** A code made of unreserved characters is passed on verbatim. */
  lemma {:induction false} UnreservedVerbatim(s: string)
    requires forall k :: 0 <= k < |s| ==> Unreserved(s[k])
    ensures EncodeUriComponent(s) == s
  {
    if s != [] {
      UnreservedVerbatim(s[1..]);
    }
  }

  /** A reserved ASCII character becomes three characters, `%` and its code. */
  lemma ReservedAscii(c: char)
    requires c as int < 0x80 && !Unreserved(c)
    ensures EncodeUriComponent([c]) == ['%', HexDigit(c as int / 16), HexDigit(c as int % 16)]
  {
    assert [c][1..] == [];
    assert Utf8(c) == [c as int];
    assert PercentBytes([c as int]) == PercentByte(c as int) + PercentBytes([]);
  }

  /** What the effect sees. `code` is `search.get('code')`, `hash` is
      `window.location.hash` ("" or a string starting with '#'). */
  datatype Location = Location(windowDefined: bool, pathname: string, code: Option<string>, hash: string)

  /** `/access_token=|refresh_token=/.test(hash)`. */
  predicate HasTokens(hash: string) {
    Contains(hash, "access_token=") || Contains(hash, "refresh_token=")
  }

  /** The target of `router.replace`, if the effect calls it. */
  function Redirect(loc: Location): (target: Option<string>)
    ensures !loc.windowDefined || loc.pathname == "/confirm" ==> target.None?
    ensures loc.windowDefined && loc.pathname != "/confirm" && Truthy(loc.code) ==>
              target == Some("/confirm?code=" + EncodeUriComponent(loc.code.value))
    ensures loc.windowDefined && loc.pathname != "/confirm" && !Truthy(loc.code) ==>
              target == (if loc.hash != "" && HasTokens(loc.hash) then Some("/confirm" + loc.hash) else None)
  {
    if !loc.windowDefined || loc.pathname == "/confirm" then None
    else if Truthy(loc.code) then Some("/confirm?code=" + EncodeUriComponent(loc.code.value))
    else if loc.hash != "" && HasTokens(loc.hash) then Some("/confirm" + loc.hash)
    else None
  }

  /** Every redirect goes to `/confirm`, and a code stays one query parameter:
      its encoding has no `&`, `#`, `=` or `/`. */
  lemma {:induction false} TargetsConfirm(loc: Location)
    requires Redirect(loc).Some?
    ensures |Redirect(loc).value| >= 8 && Redirect(loc).value[..8] == "/confirm"
    ensures Truthy(loc.code) ==>
              var t := Redirect(loc).value;
              forall k :: 14 <= k < |t| ==> t[k] != '&' && t[k] != '#' && t[k] != '=' && t[k] != '/'
  {
    var t := Redirect(loc).value;
    if Truthy(loc.code) {
      var e := EncodeUriComponent(loc.code.value);
      assert t == "/confirm?code=" + e;
      forall k | 14 <= k < |t|
        ensures t[k] != '&' && t[k] != '#' && t[k] != '=' && t[k] != '/'
      {
        assert t[k] == e[k - 14];
      }
    } else {
      assert t == "/confirm" + loc.hash;
    }
  }

  /** The code wins over a token fragment, and the fragment is forwarded as is. */
  lemma CodeBeforeHash(path: string, code: string, hash: string)
    requires path != "/confirm" && code != "" && HasTokens(hash)
    ensures Redirect(Location(true, path, Some(code), hash)) == Some("/confirm?code=" + EncodeUriComponent(code))
    ensures Redirect(Location(true, path, None, hash)) == Some("/confirm" + hash)
  {
  }
}
