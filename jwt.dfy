/** Expiry inspection of a JSON Web Token: the payload segment is decoded,
    without any signature check, and its `exp` claim is compared with the
    current time. Base64url and JSON decoding are abstract partial functions
    (`Decoders`), and the current time is a parameter. */
module Jwt {
  import opened Outcomes

  newtype byte = x: int | 0 <= x < 256

  /** The claims the session layer reads from a payload: only `exp`, in
      seconds since the Unix epoch, when present. */
  datatype Payload = Payload(exp: Option<int>)

  datatype DecodeError =
    | InvalidKeyFormat   // too few segments, or a payload segment that is not base64url
    | MalformedPayload   // the JSON decoder rejected the decoded bytes

  /** The two decoders the inspection delegates to. Each is partial: `None`
      is a failure to decode. */
  datatype Decoders = Decoders(
    base64: string -> Option<seq<byte>>,
    json: seq<byte> -> Option<Payload>)

  const Dot: char := '.'

  // ---------------------------------------------------------------------
  // Splitting, as Swift's `split(separator:)` does it: the pieces are the
  // maximal runs without the separator, and empty pieces are omitted.
  // ---------------------------------------------------------------------

  /** The longest prefix of `s` that does not contain `sep`. */
  function Word(s: string, sep: char): (w: string)
    ensures |w| <= |s| && w == s[..|w|] && sep !in w
    ensures |w| < |s| ==> s[|w|] == sep
    ensures s != [] && s[0] != sep ==> w != []
  {
    if s == [] || s[0] == sep then [] else [s[0]] + Word(s[1..], sep)
  }

  /** The non-empty, separator-free pieces of `s`, in order. */
  function Split(s: string, sep: char): (pieces: seq<string>)
    ensures forall i :: 0 <= i < |pieces| ==> pieces[i] != [] && sep !in pieces[i]
    decreases |s|
  {
    if s == [] then []
    else if s[0] == sep then Split(s[1..], sep)
    else
      var w := Word(s, sep);
      [w] + Split(s[|w|..], sep)
  }

  /** Pieces glued back together with one separator between neighbours
      (Swift's `joined(separator:)`). */
  function Join(pieces: seq<string>, sep: char): string
  {
    if pieces == [] then []
    else if |pieces| == 1 then pieces[0]
    else pieces[0] + [sep] + Join(pieces[1..], sep)
  }

  /** Everything of `s` except the separators. */
  function WithoutSeparators(s: string, sep: char): (r: string)
    ensures sep !in r
  {
    if s == [] then [] else (if s[0] == sep then [] else [s[0]]) + WithoutSeparators(s[1..], sep)
  }

  /** All the pieces, concatenated. */
  function Concat(pieces: seq<string>): string
  {
    if pieces == [] then [] else pieces[0] + Concat(pieces[1..])
  }

  lemma {:induction false} WordOfPiece(p: string, rest: string, sep: char)
    requires sep !in p
    requires rest == [] || rest[0] == sep
    ensures Word(p + rest, sep) == p
  {
    if p != [] {
      assert (p + rest)[1..] == p[1..] + rest;
      WordOfPiece(p[1..], rest, sep);
    }
  }

  /** A non-empty separator-free piece in front of a separator is the first
      piece, and splitting carries on after the separator. */
  lemma SplitPiece(p: string, rest: string, sep: char)
    requires p != [] && sep !in p
    ensures Split(p + [sep] + rest, sep) == [p] + Split(rest, sep)
  {
    var s := p + [sep] + rest;
    WordOfPiece(p, [sep] + rest, sep);
    assert s == p + ([sep] + rest);
    assert s[|p|..] == [sep] + rest;
    assert ([sep] + rest)[1..] == rest;
  }

  /** Splitting undoes joining, for pieces that `Split` could have made. */
  lemma {:induction false} SplitJoin(pieces: seq<string>, sep: char)
    requires forall i :: 0 <= i < |pieces| ==> pieces[i] != [] && sep !in pieces[i]
    ensures Split(Join(pieces, sep), sep) == pieces
  {
    if |pieces| == 1 {
      WordOfPiece(pieces[0], [], sep);
      assert pieces[0] + [] == pieces[0];
      assert pieces[0][|pieces[0]|..] == [];
    } else if |pieces| > 1 {
      SplitJoin(pieces[1..], sep);
      SplitPiece(pieces[0], Join(pieces[1..], sep), sep);
    }
  }

  /** Splitting loses the separators and nothing else. */
  lemma {:induction false} SplitKeepsAllElse(s: string, sep: char)
    ensures Concat(Split(s, sep)) == WithoutSeparators(s, sep)
    decreases |s|
  {
    if s != [] {
      if s[0] == sep {
        SplitKeepsAllElse(s[1..], sep);
      } else {
        var w := Word(s, sep);
        var rest := s[|w|..];
        SplitKeepsAllElse(rest, sep);
        assert Split(s, sep) == [w] + Split(rest, sep);
        assert ([w] + Split(rest, sep))[1..] == Split(rest, sep);
        WordWithoutSeparators(w, rest, sep);
        assert s == w + rest;
      }
    }
  }

  lemma {:induction false} WordWithoutSeparators(w: string, rest: string, sep: char)
    requires sep !in w
    ensures WithoutSeparators(w + rest, sep) == w + WithoutSeparators(rest, sep)
  {
    if w != [] {
      assert w[0] != sep;
      calc {
        WithoutSeparators(w + rest, sep);
        [w[0]] + WithoutSeparators((w + rest)[1..], sep);
        { assert (w + rest)[1..] == w[1..] + rest; }
        [w[0]] + WithoutSeparators(w[1..] + rest, sep);
        { WordWithoutSeparators(w[1..], rest, sep); }
        [w[0]] + (w[1..] + WithoutSeparators(rest, sep));
        { assert w == [w[0]] + w[1..]; }
        w + WithoutSeparators(rest, sep);
      }
    } else {
      assert w + rest == rest;
    }
  }

  // ---------------------------------------------------------------------
  // decodePayload, isExpired, isValid
  // ---------------------------------------------------------------------

  /** The payload segment's decoding: base64url first, JSON only when that
      succeeded. */
  function DecodeSegment(segment: string, dec: Decoders): (r: Result<Payload, DecodeError>)
    ensures r == Err(InvalidKeyFormat) <==> dec.base64(segment).None?
    ensures r == Err(MalformedPayload) <==>
              dec.base64(segment).Some? && dec.json(dec.base64(segment).value).None?
    ensures r.Ok? ==>
              dec.base64(segment).Some? && dec.json(dec.base64(segment).value) == Some(r.value)
  {
    match dec.base64(segment)
    case None => Err(InvalidKeyFormat)
    case Some(data) =>
      match dec.json(data)
      case None => Err(MalformedPayload)
      case Some(payload) => Ok(payload)
  }

  /** `JWT.decodePayload`: the second piece of the token is decoded, and
      nothing else of it is looked at. */
  function DecodePayload(token: string, dec: Decoders): (r: Result<Payload, DecodeError>)
    ensures var pieces := Split(token, Dot);
      && (r == Err(InvalidKeyFormat) <==> |pieces| < 2 || dec.base64(pieces[1]).None?)
      && (r == Err(MalformedPayload) <==>
            |pieces| >= 2 && dec.base64(pieces[1]).Some? && dec.json(dec.base64(pieces[1]).value).None?)
      && (r.Ok? ==>
            |pieces| >= 2 && dec.base64(pieces[1]).Some? &&
            dec.json(dec.base64(pieces[1]).value) == Some(r.value))
  {
    var pieces := Split(token, Dot);
    if |pieces| < 2 then Err(InvalidKeyFormat) else DecodeSegment(pieces[1], dec)
  }

  /** `JWT.isExpired`, at time `now`. Fail-closed: the token counts as
      unexpired only when its payload decodes and carries an `exp` later than
      `now`. */
  function IsExpired(token: string, dec: Decoders, now: int): (expired: bool)
    ensures !expired <==>
      var r := DecodePayload(token, dec); r.Ok? && r.value.exp.Some? && now < r.value.exp.value
  {
    match DecodePayload(token, dec)
    case Err(_) => true
    case Ok(payload) =>
      match payload.exp
      case None => true
      case Some(exp) => exp <= now
  }

  /** `JWT.isValid`, at time `now`: the payload decodes and carries an `exp`
      later than `now`. */
  function IsValid(token: string, dec: Decoders, now: int): (valid: bool)
    ensures valid <==>
      var r := DecodePayload(token, dec); r.Ok? && r.value.exp.Some? && now < r.value.exp.value
    ensures valid == !IsExpired(token, dec, now)
  {
    !IsExpired(token, dec, now)
  }

  // ---------------------------------------------------------------------
  // Properties
  // ---------------------------------------------------------------------

  /** Only the second non-empty piece is decoded: tokens that agree on it
      decode alike, whatever their headers, signatures or further pieces. */
  lemma OnlySecondPieceDecoded(t1: string, t2: string, dec: Decoders)
    requires |Split(t1, Dot)| >= 2 && |Split(t2, Dot)| >= 2
    requires Split(t1, Dot)[1] == Split(t2, Dot)[1]
    ensures DecodePayload(t1, dec) == DecodePayload(t2, dec)
  {
  }

  /** For a token of the form header.payload.signature, the payload segment
      alone decides the result: the signature, which may be empty or contain
      further dots, is never inspected, let alone verified. */
  lemma SignatureNeverInspected(header: string, payload: string, signature: string, dec: Decoders)
    requires header != [] && Dot !in header
    requires payload != [] && Dot !in payload
    ensures DecodePayload(header + [Dot] + payload + [Dot] + signature, dec) == DecodeSegment(payload, dec)
  {
    var token := header + [Dot] + payload + [Dot] + signature;
    assert token == header + [Dot] + (payload + [Dot] + signature);
    SplitPiece(header, payload + [Dot] + signature, Dot);
    SplitPiece(payload, signature, Dot);
  }

  /** Empty pieces are dropped before the second one is taken: an empty
      payload segment makes the signature the piece that is decoded. */
  lemma EmptyPayloadSegmentSkipped(header: string, signature: string, dec: Decoders)
    requires header != [] && Dot !in header
    requires signature != [] && Dot !in signature
    ensures DecodePayload(header + [Dot, Dot] + signature, dec) == DecodeSegment(signature, dec)
  {
    var token := header + [Dot, Dot] + signature;
    assert token == header + [Dot] + ([Dot] + signature);
    SplitPiece(header, [Dot] + signature, Dot);
    assert ([Dot] + signature)[1..] == signature;
    SplitJoin([signature], Dot);
  }

  /** An empty header piece is dropped too, so ".payload" has one piece and
      is rejected. */
  lemma EmptyHeaderRejected(payload: string, dec: Decoders)
    requires payload != [] && Dot !in payload
    ensures DecodePayload([Dot] + payload, dec) == Err(InvalidKeyFormat)
  {
    assert ([Dot] + payload)[1..] == payload;
    SplitJoin([payload], Dot);
  }

  /** A payload segment that is not base64url is rejected before the JSON
      decoder is consulted: whatever that decoder does, the result is the same. */
  lemma JsonNotReachedOnBadBase64(token: string, base64: string -> Option<seq<byte>>,
                                  json: seq<byte> -> Option<Payload>)
    requires |Split(token, Dot)| >= 2 && base64(Split(token, Dot)[1]).None?
    ensures DecodePayload(token, Decoders(base64, json)) == Err(InvalidKeyFormat)
  {
  }

  /** Fail-closed: a token that does not decode counts as expired. */
  lemma UndecodableIsExpired(token: string, dec: Decoders, now: int)
    requires DecodePayload(token, dec).Err?
    ensures IsExpired(token, dec, now)
  {
  }

  /** Fail-closed: a payload without `exp` counts as expired. */
  lemma MissingExpIsExpired(token: string, dec: Decoders, now: int)
    requires DecodePayload(token, dec).Ok? && DecodePayload(token, dec).value.exp.None?
    ensures IsExpired(token, dec, now)
  {
  }

  /** With `exp` present the answer is exactly `exp <= now`; `exp == now`
      is already expired. */
  lemma ExpiryBoundary(token: string, dec: Decoders, now: int)
    requires DecodePayload(token, dec).Ok? && DecodePayload(token, dec).value.exp.Some?
    ensures IsExpired(token, dec, now) == (DecodePayload(token, dec).value.exp.value <= now)
  {
  }

  /** An expired token stays expired as time passes. */
  lemma ExpiryIsMonotonic(token: string, dec: Decoders, now: int, later: int)
    requires now <= later
    requires IsExpired(token, dec, now)
    ensures IsExpired(token, dec, later)
  {
  }

  /** The token "eyJhbGciOiJub25lIn0.eyJleHAiOjF9.sig", whose payload segment
      decodes to {"exp":1}, is expired at every time from epoch second 1 on. */
  lemma ExpiredSampleToken(dec: Decoders, now: int)
    requires dec.base64("eyJleHAiOjF9").Some?
    requires dec.json(dec.base64("eyJleHAiOjF9").value) == Some(Payload(Some(1)))
    requires 1 <= now
    ensures IsExpired("eyJhbGciOiJub25lIn0.eyJleHAiOjF9.sig", dec, now)
  {
    assert "eyJhbGciOiJub25lIn0.eyJleHAiOjF9.sig"
        == "eyJhbGciOiJub25lIn0" + [Dot] + "eyJleHAiOjF9" + [Dot] + "sig";
    SignatureNeverInspected("eyJhbGciOiJub25lIn0", "eyJleHAiOjF9", "sig", dec);
  }
}
