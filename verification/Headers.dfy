/** What a frame's header must look like to be read, and how long a body is in bytes. */
module Headers {
  import opened Common
  import opened Text
  import opened AcpFraming

  // ---------------------------------------------------------------------------------------------
  // Byte lengths

  /** The bytes of a character in UTF-8, as section 3 of RFC 3629 lays them out. */
  function Encoded(c: char): seq<int> {
    var n := c as int;
    if n <= 0x7F then [n]
    else if n <= 0x7FF then [0xC0 + n / 64, 0x80 + n % 64]
    else if n <= 0xFFFF then [0xE0 + n / 4096, 0x80 + n / 64 % 64, 0x80 + n % 64]
    else [0xF0 + n / 262144, 0x80 + n / 4096 % 64, 0x80 + n / 64 % 64, 0x80 + n % 64]
  }

  /** The code point that a sequence of bytes stands for, its length told by the first. */
  function CodePoint(bytes: seq<int>): int
    requires |bytes| > 0
  {
    if bytes[0] < 0x80 then bytes[0]
    else if bytes[0] < 0xE0 && |bytes| == 2 then (bytes[0] - 0xC0) * 64 + (bytes[1] - 0x80)
    else if bytes[0] < 0xF0 && |bytes| == 3 then (bytes[0] - 0xE0) * 4096 + (bytes[1] - 0x80) * 64 + (bytes[2] - 0x80)
    else if |bytes| == 4 then
      (bytes[0] - 0xF0) * 262144 + (bytes[1] - 0x80) * 4096 + (bytes[2] - 0x80) * 64 + (bytes[3] - 0x80)
    else -1
  }

  /** Every character is counted with exactly the bytes that encode it, and they decode to it again. */
  lemma CharacterBytes(c: char)
    ensures |Encoded(c)| == Utf8Bytes(c) && CodePoint(Encoded(c)) == c as int
    ensures forall k :: 0 <= k < |Encoded(c)| ==> 0 <= Encoded(c)[k] < 256
  {
    var n := c as int;
    assert n < 0x11_0000;
    assert n == n / 64 * 64 + n % 64 && n / 64 == n / 4096 * 64 + n / 64 % 64;
    assert n / 4096 == n / 262144 * 64 + n / 4096 % 64;
  }

  /** The length in a header is the number of bytes of the body. */
  lemma {:induction false} BodyBytes(body: string)
    ensures ByteLength(body) == |Flatten(seq(|body|, k requires 0 <= k < |body| => Encoded(body[k])))|
  {
    if body != [] {
      var init, last := body[..|body| - 1], body[|body| - 1];
      BodyBytes(init);
      CharacterBytes(last);
      var pieces := seq(|init|, k requires 0 <= k < |init| => Encoded(init[k]));
      FlattenSnoc(pieces, Encoded(last));
      assert seq(|body|, k requires 0 <= k < |body| => Encoded(body[k])) == pieces + [Encoded(last)];
    }
  }

  // ---------------------------------------------------------------------------------------------
  // Headers

  /** At p stands the key, in any case, then white space, then digits up to where they end. */
  ghost predicate LengthAt(header: string, p: nat, from: nat, to: nat) {
    && p + 15 <= from < to <= |header| && Lower(header[p..p + 15]) == "content-length:"
    && (forall k :: p + 15 <= k < from ==> IsSpace(header[k]))
    && (forall k :: from <= k < to ==> IsDigit(header[k]))
    && (to < |header| ==> !IsDigit(header[to]))
  }

  lemma OneLengthAt(header: string, p: nat, from: nat, to: nat)
    requires p <= |header| && LengthAt(header, p, from, to)
    ensures MatchHeaderAt(header, p) == Some(ParseDecimal(header[from..to]))
  {
    assert |HEADER_KEY| == 15;
    var a := SkipWhile(header, p + 15, IsSpace);
    assert !IsSpace(header[from]);
    assert a == from;
    assert SkipWhile(header, a, IsDigit) == to;
  }

  lemma LengthIsThere(header: string, p: nat) returns (from: nat, to: nat)
    requires p <= |header| && MatchHeaderAt(header, p).Some?
    ensures LengthAt(header, p, from, to) && MatchHeaderAt(header, p) == Some(ParseDecimal(header[from..to]))
  {
    assert |HEADER_KEY| == 15;
    from := SkipWhile(header, p + 15, IsSpace);
    to := SkipWhile(header, from, IsDigit);
  }

  /** The length n stands at p. */
  ghost predicate ReadsAt(header: string, p: nat, n: nat) {
    exists from: nat, to: nat :: LengthAt(header, p, from, to) && n == ParseDecimal(header[from..to])
  }

  lemma ReadsExactlyWhen(header: string, p: nat)
    requires p <= |header|
    ensures forall n: nat :: ReadsAt(header, p, n) <==> MatchHeaderAt(header, p) == Some(n)
  {
    forall n: nat | ReadsAt(header, p, n)
      ensures MatchHeaderAt(header, p) == Some(n)
    {
      var from: nat, to: nat :| LengthAt(header, p, from, to) && n == ParseDecimal(header[from..to]);
      OneLengthAt(header, p, from, to);
    }
    if MatchHeaderAt(header, p).Some? {
      var from, to := LengthIsThere(header, p);
      assert ReadsAt(header, p, MatchHeaderAt(header, p).value);
    }
  }

  /** Nothing can be read at any of these places. */
  ghost predicate NothingRead(header: string, from: nat, to: nat) {
    forall q: nat, n: nat :: from <= q < to ==> !ReadsAt(header, q, n)
  }

  lemma NothingMore(header: string, p: nat, to: nat)
    requires p <= |header| && MatchHeaderAt(header, p).None? && NothingRead(header, p + 1, to)
    ensures NothingRead(header, p, to)
  {
    ReadsExactlyWhen(header, p);
  }

  /** The length read from a header is the one at the first place that holds any; without one nothing is read. */
  lemma {:induction false} HeaderExactlyWhen(header: string, p: nat) returns (at: nat)
    requires p <= |header|
    ensures match MatchHeader(header, p)
            case Some(n) => p <= at <= |header| && ReadsAt(header, at, n) && NothingRead(header, p, at)
            case None => NothingRead(header, p, |header| + 1)
    decreases |header| - p
  {
    at := p;
    if MatchHeaderAt(header, p).Some? {
      ReadsExactlyWhen(header, p);
    } else {
      if p < |header| { at := HeaderExactlyWhen(header, p + 1); }
      NothingMore(header, p, if MatchHeader(header, p).Some? then at else |header| + 1);
    }
  }
}
