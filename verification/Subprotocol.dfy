/** The egress subprotocol header: three values joined for the wire and read back
    by a comma-separated list reader. */
module Subprotocol {
  import opened Prelude
  import opened Splitting

  const COMMA: u8 := 0x2C
  const SPACE: u8 := 0x20
  const TAB: u8 := 0x09

  // "un80und3d"
  const COOKIE: Bytes := [0x75, 0x6E, 0x38, 0x30, 0x75, 0x6E, 0x64, 0x33, 0x64]

  function EgressSubprotocols(csid: Bytes, version: Bytes): seq<Bytes> {
    [COOKIE, csid, version]
  }

  function ParseEgressSubprotocols(values: seq<Bytes>): Option<(Bytes, Bytes)> {
    if |values| != 3 then None else Some((values[1], values[2]))
  }

  predicate IsAsciiGraphic(b: u8) { 0x21 <= b <= 0x7E }

  predicate IsSubprotocolToken(value: Bytes) {
    value != [] && forall i :: 0 <= i < |value| ==> IsAsciiGraphic(value[i]) && value[i] != COMMA
  }

  predicate IsOptionalSpace(b: u8) { b == SPACE || b == TAB }

  function TrimStart(s: Bytes): Bytes {
    if s != [] && IsOptionalSpace(s[0]) then TrimStart(s[1..]) else s
  }

  function TrimEnd(s: Bytes): Bytes {
    if s != [] && IsOptionalSpace(s[|s| - 1]) then TrimEnd(s[..|s| - 1]) else s
  }

  function Trim(s: Bytes): Bytes { TrimEnd(TrimStart(s)) }

  /** The header value as it is sent. */
  function Header(csid: Bytes, version: Bytes): Bytes {
    Join(EgressSubprotocols(csid, version), [COMMA, SPACE])
  }

  /** A reader of a comma-separated list, as section 11.3.4 of RFC 6455 describes
      it: cut at commas and drop optional white space around each value. */
  function ReadHeader(header: Bytes): seq<Bytes> {
    var pieces := Split(header, COMMA);
    seq(|pieces|, i requires 0 <= i < |pieces| => Trim(pieces[i]))
  }

  /** A value that a list reader hands back as it was given. */
  predicate SurvivesList(value: Bytes) { COMMA !in value && Trim(value) == value }

  lemma {:induction false} TokenSurvives(value: Bytes)
    requires IsSubprotocolToken(value)
    ensures SurvivesList(value)
  {
    assert TrimStart(value) == value;
  }

  lemma {:induction false} TrimSpace(value: Bytes)
    ensures Trim([SPACE] + value) == Trim(value)
  {
    assert ([SPACE] + value)[1..] == value;
  }

  /** A token is visible ASCII without commas, and not empty. */
  lemma {:induction false} TokenExactly(value: Bytes)
    ensures IsSubprotocolToken(value)
       <==> value != [] && forall i :: 0 <= i < |value| ==> 0x21 <= value[i] <= 0x7E && value[i] != 0x2C
  {
  }

  /** The header's bytes: "un80und3d, " and then the session ID, ", " and the version. */
  lemma {:induction false} HeaderBytes(csid: Bytes, version: Bytes)
    ensures Header(csid, version)
         == [0x75, 0x6E, 0x38, 0x30, 0x75, 0x6E, 0x64, 0x33, 0x64, 0x2C, 0x20] + csid + [0x2C, 0x20] + version
  {
    HeaderForm(csid, version);
    var head: Bytes := [0x75, 0x6E, 0x38, 0x30, 0x75, 0x6E, 0x64, 0x33, 0x64, 0x2C, 0x20];
    assert COOKIE + [COMMA, SPACE] == head;
    assert head + (csid + [COMMA, SPACE] + version) == head + csid + [COMMA, SPACE] + version;
  }

  lemma {:induction false} HeaderForm(csid: Bytes, version: Bytes)
    ensures Header(csid, version) == COOKIE + [COMMA, SPACE] + (csid + [COMMA, SPACE] + version)
  {
    var values := EgressSubprotocols(csid, version);
    assert values[1..] == [csid, version] && [csid, version][1..] == [version];
    assert Join([version], [COMMA, SPACE]) == version;
    assert Join([csid, version], [COMMA, SPACE]) == csid + [COMMA, SPACE] + version;
  }

  lemma {:induction false} HeaderPieces(csid: Bytes, version: Bytes)
    requires COMMA !in csid && COMMA !in version
    ensures Split(Header(csid, version), COMMA) == [COOKIE, [SPACE] + csid, [SPACE] + version]
  {
    var tail := [SPACE] + csid + [COMMA] + ([SPACE] + version);
    HeaderForm(csid, version);
    assert Header(csid, version) == COOKIE + [COMMA] + tail;
    SplitAt(COOKIE, COMMA, tail);
    SplitAt([SPACE] + csid, COMMA, [SPACE] + version);
    SplitWhole([SPACE] + version, COMMA);
  }

  /** How many times the separator occurs. */
  ghost function Count(s: Bytes, sep: u8): nat {
    if s == [] then 0 else (if s[0] == sep then 1 else 0) + Count(s[1..], sep)
  }

  lemma {:induction false} SplitCount(s: Bytes, sep: u8)
    ensures |Split(s, sep)| == Count(s, sep) + 1
    decreases |s|
  {
    if s == [] {
    } else {
      SplitCount(s[1..], sep);
    }
  }

  lemma {:induction false} CountAppend(a: Bytes, b: Bytes, sep: u8)
    ensures Count(a + b, sep) == Count(a, sep) + Count(b, sep)
    decreases |a|
  {
    if a == [] {
      assert a + b == b;
    } else {
      assert (a + b)[1..] == a[1..] + b;
      CountAppend(a[1..], b, sep);
    }
  }

  lemma {:induction false} CountZero(s: Bytes, sep: u8)
    ensures Count(s, sep) == 0 <==> sep !in s
    decreases |s|
  {
    if s == [] {
    } else {
      CountZero(s[1..], sep);
      assert s == [s[0]] + s[1..];
    }
  }

  lemma {:induction false} HeaderCommas(csid: Bytes, version: Bytes)
    ensures Count(Header(csid, version), COMMA) == 2 + Count(csid, COMMA) + Count(version, COMMA)
  {
    var glue := [COMMA, SPACE];
    HeaderForm(csid, version);
    assert Header(csid, version) == COOKIE + (glue + (csid + (glue + version)));
    CountAppend(COOKIE, glue + (csid + (glue + version)), COMMA);
    CountAppend(glue, csid + (glue + version), COMMA);
    CountAppend(csid, glue + version, COMMA);
    CountAppend(glue, version, COMMA);
    CountZero(COOKIE, COMMA);
    assert glue[1..] == [SPACE];
    CountZero([SPACE], COMMA);
  }

  /** The header comes back as the same two values exactly when both survive a
      list: no comma inside, no optional white space around. */
  lemma {:induction false} HeaderRoundTrip(csid: Bytes, version: Bytes)
    ensures ParseEgressSubprotocols(ReadHeader(Header(csid, version))) == Some((csid, version))
       <==> SurvivesList(csid) && SurvivesList(version)
  {
    if COMMA !in csid && COMMA !in version {
      HeaderPieces(csid, version);
      TrimSpace(csid);
      TrimSpace(version);
    } else {
      HeaderCommas(csid, version);
      SplitCount(Header(csid, version), COMMA);
      CountZero(csid, COMMA);
      CountZero(version, COMMA);
    }
  }

  /** Every session ID and version that pass the token check come back, as exactly
      three values headed by the cookie. */
  lemma {:induction false} TokensRoundTrip(csid: Bytes, version: Bytes)
    requires IsSubprotocolToken(csid) && IsSubprotocolToken(version)
    ensures ReadHeader(Header(csid, version)) == EgressSubprotocols(csid, version)
  {
    TokenSurvives(csid);
    TokenSurvives(version);
    HeaderPieces(csid, version);
    TrimSpace(csid);
    TrimSpace(version);
    assert Trim(COOKIE) == COOKIE;
  }
}
