/** Endpoints as text: `host:port`, lists of them, and what the parsers accept. */
module Endpoints {
  import opened Bytes
  import opened Text

  datatype Endpoint = Endpoint(host: string, port: Uint16)

  datatype ParseError = NoSeparator | BadPort | Incomplete

  datatype Parsed<+T> = Good(value: T) | Bad(error: ParseError)

  predicate IsValid(e: Endpoint)
  {
    e.host != "" && e.port != 0
  }

  // ---------------------------------------------------------------- numbers

  predicate IsDigit(c: char)
  {
    '0' <= c <= '9'
  }

  function Digit(n: nat): (c: char)
    requires n < 10
    ensures IsDigit(c) && DigitValue(c) == n
  {
    n as char + '0'
  }

  function DigitValue(c: char): (n: nat)
    requires IsDigit(c)
    ensures n < 10
  {
    (c - '0') as nat
  }

  predicate AllDigits(s: string)
  {
    forall i :: 0 <= i < |s| ==> IsDigit(s[i])
  }

  /** `std::to_string`. */
  function Decimal(n: nat): (s: string)
    ensures s != "" && AllDigits(s)
  {
    if n < 10 then [Digit(n)] else Decimal(n / 10) + [Digit(n % 10)]
  }

  function NumberOf(digits: string): (n: nat)
    requires AllDigits(digits)
  {
    if digits == "" then 0
    else 10 * NumberOf(digits[..|digits| - 1]) + DigitValue(digits[|digits| - 1])
  }

  lemma {:induction false} DecimalValue(n: nat)
    ensures NumberOf(Decimal(n)) == n
  {
    var d := Decimal(n);
    if n < 10 {
      assert d[..0] == "";
    } else {
      assert d[..|d| - 1] == Decimal(n / 10);
      DecimalValue(n / 10);
    }
  }

  function LeadingDigits(s: string): (d: string)
    ensures AllDigits(d)
  {
    if s != "" && IsDigit(s[0]) then [s[0]] + LeadingDigits(s[1..]) else ""
  }

  lemma {:induction false} LeadingDigitsAll(d: string, rest: string)
    requires AllDigits(d) && (rest == "" || !IsDigit(rest[0]))
    ensures LeadingDigits(d + rest) == d
  {
    if d == "" {
      assert d + rest == rest;
    } else {
      assert (d + rest)[1..] == d[1..] + rest;
      LeadingDigitsAll(d[1..], rest);
    }
  }

  /** `isspace` in the C locale. */
  predicate CSpace(c: char)
  {
    c as int == 32 || 9 <= c as int <= 13
  }

  function SkipSpace(s: string): (r: string)
  {
    if s != "" && CSpace(s[0]) then SkipSpace(s[1..]) else s
  }

  /** `std::stoul`: spaces, a sign, digits, and anything after them ignored. A minus sign negates modulo 2^64. None is
      an exception: no digits, or a value beyond 64 bits. */
  function Stoul(s: string): (r: Option<Uint64>)
  {
    var t := SkipSpace(s);
    var negative := t != "" && t[0] == '-';
    var digits := LeadingDigits(if t != "" && (t[0] == '-' || t[0] == '+') then t[1..] else t);
    if digits == "" || NumberOf(digits) >= U64 then None
    else Some(if negative then (U64 - NumberOf(digits)) % U64 else NumberOf(digits))
  }

  lemma {:induction false} SpaceSkipped(pad: string, s: string)
    requires (forall i :: 0 <= i < |pad| ==> CSpace(pad[i])) && (s == "" || !CSpace(s[0]))
    ensures SkipSpace(pad + s) == s
  {
    if pad == "" {
      assert pad + s == s;
    } else {
      assert (pad + s)[1..] == pad[1..] + s;
      SpaceSkipped(pad[1..], s);
    }
  }

  predicate IsSign(sign: string)
  {
    sign == "" || sign == "+" || sign == "-"
  }

  /** Spaces, a sign and digits are read, anything after them is ignored, and a minus negates modulo 2^64; a number
      beyond 64 bits is refused. */
  lemma StoulReads(pad: string, sign: string, digits: string, rest: string)
    requires (forall i :: 0 <= i < |pad| ==> CSpace(pad[i])) && IsSign(sign)
    requires digits != "" && AllDigits(digits) && (rest == "" || !IsDigit(rest[0]))
    ensures Stoul(pad + (sign + (digits + rest)))
         == (if NumberOf(digits) >= U64 then None
             else Some(if sign == "-" then (U64 - NumberOf(digits)) % U64 else NumberOf(digits)))
  {
    var t := sign + (digits + rest);
    assert IsDigit(digits[0]);
    SpaceSkipped(pad, t);
    LeadingDigitsAll(digits, rest);
    if sign == "" { assert t == digits + rest; } else { assert t[1..] == digits + rest; }
  }

  /** Without a digit there is no number. */
  lemma StoulRefuses(pad: string, sign: string, rest: string)
    requires (forall i :: 0 <= i < |pad| ==> CSpace(pad[i])) && IsSign(sign)
    requires rest == "" || (!IsDigit(rest[0]) && (sign == "" ==> !CSpace(rest[0]) && rest[0] != '+' && rest[0] != '-'))
    ensures Stoul(pad + (sign + rest)) == None
  {
    var t := sign + rest;
    SpaceSkipped(pad, t);
    if sign == "" { assert t == rest; } else { assert t[1..] == rest; }
  }

  lemma StoulDecimal(n: nat)
    ensures Stoul(Decimal(n)) == (if n < U64 then Some(n) else None)
  {
    var d := Decimal(n);
    DecimalValue(n);
    LeadingDigitsAll(d, "");
    assert d + "" == d;
    assert IsDigit(d[0]);
  }

  // ---------------------------------------------------------------- printing and parsing

  function ToString(e: Endpoint): (s: string)
  {
    e.host + ":" + Decimal(e.port)
  }

  /** The configuration parser: trims both halves and truncates the port to 16 bits. */
  function ParseEndpoint(raw: string): (r: Parsed<Endpoint>)
  {
    match Find(raw, ':')
    case None => Bad(NoSeparator)
    case Some(i) =>
      match Stoul(TrimCopy(raw[i + 1..]))
      case None => Bad(BadPort)
      case Some(n) =>
        var e := Endpoint(TrimCopy(raw[..i]), n % U16);
        if IsValid(e) then Good(e) else Bad(Incomplete)
  }

  /** The service-discovery parser does not trim. */
  function ParseInstance(raw: string): (r: Parsed<Endpoint>)
  {
    match Find(raw, ':')
    case None => Bad(NoSeparator)
    case Some(i) =>
      match Stoul(raw[i + 1..])
      case None => Bad(BadPort)
      case Some(n) =>
        var e := Endpoint(raw[..i], n % U16);
        if IsValid(e) then Good(e) else Bad(Incomplete)
  }

  /** What both parsers make of the two halves of a text, trimmed or not. */
  function FromHalves(host: string, port: string): (r: Parsed<Endpoint>)
  {
    match Stoul(port)
    case None => Bad(BadPort)
    case Some(n) => if host == "" || n % U16 == 0 then Bad(Incomplete) else Good(Endpoint(host, n % U16))
  }

  /** The first colon separates host and port; without one there is no endpoint. */
  lemma EndpointHalves(host: string, port: string)
    requires ':' !in host
    ensures ParseEndpoint(host) == Bad(NoSeparator) && ParseInstance(host) == Bad(NoSeparator)
    ensures ParseEndpoint(host + ":" + port) == FromHalves(TrimCopy(host), TrimCopy(port))
    ensures ParseInstance(host + ":" + port) == FromHalves(host, port)
  {
    hide Stoul, TrimCopy;
    var text := host + ":" + port;
    FindAfter(host, ':', port);
    assert text == host + [':'] + port;
    assert text[..|host|] == host && text[|host| + 1..] == port;
  }

  function ParseAll(items: seq<string>): (r: Parsed<seq<Endpoint>>)
  {
    if items == [] then Good([])
    else
      match ParseEndpoint(TrimCopy(items[0]))
      case Bad(e) => Bad(e)
      case Good(first) =>
        match ParseAll(items[1..])
        case Bad(e) => Bad(e)
        case Good(rest) => Good([first] + rest)
  }

  /** Item `k` is the first that does not parse, with this error. */
  predicate FirstBad(items: seq<string>, k: nat, error: ParseError)
  {
    && k < |items| && ParseEndpoint(TrimCopy(items[k])) == Bad(error)
    && forall j :: 0 <= j < k ==> ParseEndpoint(TrimCopy(items[j])).Good?
  }

  /** A list parses exactly when all its items do, into their endpoints in order; otherwise the first bad item says why
      not. */
  lemma {:induction false} ParseAllIs(items: seq<string>)
    ensures var r := ParseAll(items);
            && (r.Good? <==> forall k :: 0 <= k < |items| ==> ParseEndpoint(TrimCopy(items[k])).Good?)
            && (r.Good? ==> |r.value| == |items|
                            && forall k :: 0 <= k < |items| ==> ParseEndpoint(TrimCopy(items[k])) == Good(r.value[k]))
            && (r.Bad? ==> exists k :: FirstBad(items, k, r.error))
  {
    hide ParseEndpoint, TrimCopy;
    if items != [] {
      ParseAllIs(items[1..]);
      var first, rest := ParseEndpoint(TrimCopy(items[0])), ParseAll(items[1..]);
      forall k | 0 < k < |items| ensures items[k] == items[1..][k - 1] {}
      if first.Bad? {
        assert FirstBad(items, 0, first.error);
      } else if rest.Bad? {
        var k: nat :| FirstBad(items[1..], k, rest.error);
        assert FirstBad(items, k + 1, rest.error);
      }
    }
  }

  function ParseList(raw: string): (r: Parsed<seq<Endpoint>>)
  {
    ParseAll(SplitOn(raw, ','))
  }

  method ParseEndpointList(raw: string) returns (r: Parsed<seq<Endpoint>>)
    ensures r == ParseList(raw)
    ensures r.Good? <==>
              forall k :: 0 <= k < |SplitOn(raw, ',')| ==> ParseEndpoint(TrimCopy(SplitOn(raw, ',')[k])).Good?
    ensures r.Good? ==>
              && |r.value| == |SplitOn(raw, ',')|
              && forall k :: 0 <= k < |r.value| ==> ParseEndpoint(TrimCopy(SplitOn(raw, ',')[k])) == Good(r.value[k])
    ensures r.Bad? ==> exists k :: FirstBad(SplitOn(raw, ','), k, r.error)
  {
    hide ParseEndpoint, TrimCopy, SplitOn, IsValid, FirstBad;
    ParseAllIs(SplitOn(raw, ','));
    var items := Split(raw, ',');
    var endpoints: seq<Endpoint> := [];
    var i := 0;
    assert items[0..] == items;
    assert forall rest: seq<Endpoint> {:trigger endpoints + rest} :: endpoints + rest == rest;
    while i < |items|
      invariant 0 <= i <= |items|
      invariant ParseAll(items)
             == (match ParseAll(items[i..]) case Bad(e) => Bad(e) case Good(rest) => Good(endpoints + rest))
    {
      var parsed := ParseEndpoint(TrimCopy(items[i]));
      assert items[i..][1..] == items[i + 1..];
      if parsed.Bad? { return Bad(parsed.error); }
      ghost var later := ParseAll(items[i + 1..]);
      assert later.Good? ==> endpoints + ([parsed.value] + later.value) == (endpoints + [parsed.value]) + later.value;
      endpoints := endpoints + [parsed.value];
      i := i + 1;
    }
    assert endpoints + [] == endpoints;
    return Good(endpoints);
  }

  // ---------------------------------------------------------------- round trips

  /** A host that the text form can carry. */
  predicate PlainHost(host: string)
  {
    host != "" && Trimmed(host) && ':' !in host && ',' !in host
  }

  lemma DecimalTrims(n: nat)
    ensures TrimCopy(Decimal(n)) == Decimal(n)
  {
    var d := Decimal(n);
    assert IsDigit(d[0]) && IsDigit(d[|d| - 1]);
    TrimPadded("", d, "");
    assert "" + d + "" == d;
  }

  lemma PlainTrims(s: string)
    requires Trimmed(s)
    ensures TrimCopy(s) == s
  {
    TrimPadded("", s, "");
    assert "" + s + "" == s;
  }

  /** What a written port becomes. */
  function TruncatedPort(host: string, n: nat): (r: Parsed<Endpoint>)
  {
    if n >= U64 then Bad(BadPort) else if n % U16 == 0 then Bad(Incomplete) else Good(Endpoint(host, n % U16))
  }

  lemma ParsePrinted(host: string, n: nat)
    requires PlainHost(host)
    ensures ParseEndpoint(host + ":" + Decimal(n)) == TruncatedPort(host, n)
  {
    hide Decimal, Stoul, TrimCopy, Find;
    var text := host + ":" + Decimal(n);
    FindAfter(host, ':', Decimal(n));
    assert text == host + [':'] + Decimal(n);
    assert text[..|host|] == host && text[|host| + 1..] == Decimal(n);
    PlainTrims(host);
    DecimalTrims(n);
    StoulDecimal(n);
  }

  /** The parser keeps only the low 16 bits of a port of up to 64 bits: a multiple of 65536 is refused, and what was
      written comes back exactly when it is a nonzero 16-bit number; anything else silently becomes another port. Beyond
      64 bits the number is refused. */
  lemma PortTruncated(host: string, n: nat)
    requires PlainHost(host)
    ensures ParseEndpoint(host + ":" + Decimal(n)) == TruncatedPort(host, n)
    ensures (exists e :: ParseEndpoint(host + ":" + Decimal(n)) == Good(e) && e.port == n) <==> 0 < n < U16
  {
    hide ParseEndpoint, Decimal, PlainHost;
    ParsePrinted(host, n);
    if 0 < n < U16 {
      assert ParseEndpoint(host + ":" + Decimal(n)) == Good(Endpoint(host, n));
    }
  }

  lemma EndpointRoundTrip(e: Endpoint)
    requires PlainHost(e.host) && e.port != 0
    ensures ParseEndpoint(ToString(e)) == Good(e)
  {
    hide ParseEndpoint, Decimal, PlainHost;
    ParsePrinted(e.host, e.port);
  }

  /** Discovery reads back what registration wrote, for any host without a colon. */
  lemma InstanceRoundTrip(e: Endpoint)
    requires IsValid(e) && ':' !in e.host
    ensures ParseInstance(ToString(e)) == Good(e)
  {
    var text := ToString(e);
    FindAfter(e.host, ':', Decimal(e.port));
    assert text == e.host + [':'] + Decimal(e.port);
    assert text[..|e.host|] == e.host && text[|e.host| + 1..] == Decimal(e.port);
    StoulDecimal(e.port);
  }

  function Texts(es: seq<Endpoint>): (ss: seq<string>)
    ensures |ss| == |es|
  {
    seq(|es|, i requires 0 <= i < |es| => ToString(es[i]))
  }

  lemma ToStringPlain(e: Endpoint)
    requires PlainHost(e.host)
    ensures ',' !in ToString(e) && Trimmed(ToString(e))
  {
    var d := Decimal(e.port);
    assert forall i :: 0 <= i < |d| ==> IsDigit(d[i]);
    assert ',' !in d;
    assert ToString(e)[|ToString(e)| - 1] == d[|d| - 1];
  }

  lemma {:induction false} ParseAllTexts(es: seq<Endpoint>)
    requires forall i :: 0 <= i < |es| ==> PlainHost(es[i].host) && es[i].port != 0
    ensures ParseAll(Texts(es)) == Good(es)
  {
    hide ParseEndpoint, TrimCopy, ToString, IsValid;
    if es != [] {
      assert Texts(es)[1..] == Texts(es[1..]);
      ParseAllTexts(es[1..]);
      ToStringPlain(es[0]);
      PlainTrims(ToString(es[0]));
      EndpointRoundTrip(es[0]);
      assert Texts(es)[0] == ToString(es[0]);
      assert [es[0]] + es[1..] == es;
    }
  }

  /** A nonempty list of valid endpoints survives printing, joining with commas, and parsing. */
  lemma ListRoundTrip(es: seq<Endpoint>)
    requires |es| >= 1 && forall i :: 0 <= i < |es| ==> PlainHost(es[i].host) && es[i].port != 0
    ensures ParseList(Join(Texts(es), ',')) == Good(es)
  {
    forall i | 0 <= i < |es|
      ensures ',' !in Texts(es)[i]
    {
      ToStringPlain(es[i]);
    }
    SplitJoin(Texts(es), ',');
    ParseAllTexts(es);
  }

  /** `ToString` is injective on all endpoints, whatever the hosts contain, so pool keys never collide. */
  lemma ToStringInjective(a: Endpoint, b: Endpoint)
    requires ToString(a) == ToString(b)
    ensures a == b
  {
    var s := ToString(a);
    var da, db := Decimal(a.port), Decimal(b.port);
    assert s[|a.host|] == ':' && s[|b.host|] == ':';
    assert s[|a.host| + 1..] == da && s[|b.host| + 1..] == db;
    assert forall i :: |a.host| < i < |s| ==> s[i] == da[i - |a.host| - 1];
    assert forall i :: |b.host| < i < |s| ==> s[i] == db[i - |b.host| - 1];
    assert |a.host| == |b.host|;
    assert s[..|a.host|] == a.host && s[..|b.host|] == b.host;
    DecimalValue(a.port);
    DecimalValue(b.port);
  }
}
