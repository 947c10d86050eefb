/**
 * The token constructors of the users package (cmd_token.go), the password
 * helpers they sit beside (passwords.go) and the signed-token maker the commands
 * call (authz.JWTAuthMaker). SHA-256, bcrypt's hashing (all of it but the
 * checks it makes on a hash before comparing), HMAC signing, the random source
 * and the clock are not computed here: their results are parameters.
 */
module Tokens {
  import opened Wrappers
  import opened Errs
  import opened Users
  import Text
  import Base32

  // ---- one-time tokens ----

  /** GenerateOTP: the draw `n` of rand.Int below 1000000 (or its error), printed
      as `%06d`; only its SHA-256 digest is kept beside it. */
  function GenerateOTP(userId: Uuid, ttl: int, scope: Scope, draw: Result<nat>, now: Time,
                       sha256: string -> Digest): (r: Result<Token>)
    requires draw.Ok? ==> draw.value < 1000000
    ensures r.Ok? <==> draw.Ok?
    ensures draw.Fail? ==> r == Fail(draw.error)
    ensures r.Ok? ==>
      |r.value.plaintext| == 6
      && (forall i :: 0 <= i < 6 ==> Text.IsDigit(r.value.plaintext[i]))
      && Text.DecimalValue(r.value.plaintext) == draw.value
      && r.value.tokenHash == sha256(r.value.plaintext)
      && r.value.userId == userId && r.value.scope == scope && r.value.expiry == now + ttl
  {
    match draw
    case Fail(e) => Fail(e)
    case Ok(n) =>
      assert Text.Pow10(6) == 1000000;
      var otp := Text.ZeroPadded(n, 6);
      Ok(Token(otp, sha256(otp), userId, now + ttl, scope))
  }

  /** Different draws give different codes, so the code determines the draw. */
  lemma OtpDeterminesDraw(userId: Uuid, ttl: int, scope: Scope, m: nat, n: nat, now: Time,
                          sha256: string -> Digest)
    requires m < 1000000 && n < 1000000
    ensures (GenerateOTP(userId, ttl, scope, Ok(m), now, sha256).value.plaintext
               == GenerateOTP(userId, ttl, scope, Ok(n), now, sha256).value.plaintext) <==> m == n
  {
    assert Text.Pow10(6) == 1000000;
    if Text.ZeroPadded(m, 6) == Text.ZeroPadded(n, 6) {
      Text.ZeroPaddedInjective(m, n, 6);
    }
  }

  /** GenerateToken: sixteen random bytes (or the reader's error) encoded as
      unpadded base 32. */
  function GenerateToken(userId: Uuid, ttl: int, scope: Scope, random: Result<seq<Byte>>, now: Time,
                         sha256: string -> Digest): (r: Result<Token>)
    requires random.Ok? ==> |random.value| == 16
    ensures r.Ok? <==> random.Ok?
    ensures random.Fail? ==> r == Fail(Wrap("generatetoken: ", random.error))
    ensures r.Ok? ==>
      |r.value.plaintext| == 26
      && (forall i :: 0 <= i < 26 ==> Base32.IsSymbol(r.value.plaintext[i]))
      && r.value.tokenHash == sha256(r.value.plaintext)
      && r.value.userId == userId && r.value.scope == scope && r.value.expiry == now + ttl
  {
    match random
    case Fail(e) => Fail(Wrap("generatetoken: ", e))
    case Ok(bytes) =>
      var plaintext := Base32.EncodeNoPad(bytes);
      Ok(Token(plaintext, sha256(plaintext), userId, now + ttl, scope))
  }

  /** The plaintext carries the random bytes unchanged: decoding it gives them back. */
  lemma TokenKeepsRandomBytes(userId: Uuid, ttl: int, scope: Scope, bytes: seq<Byte>, now: Time,
                              sha256: string -> Digest)
    requires |bytes| == 16
    ensures Base32.DecodeNoPad(GenerateToken(userId, ttl, scope, Ok(bytes), now, sha256).value.plaintext) == bytes
  {
    Base32.DecodeEncode(bytes);
  }

  // ---- passwords ----

  /** bcrypt.CompareHashAndPassword's verdict once the hash has passed its
      leading checks: the password matches, bcrypt.ErrMismatchedHashAndPassword,
      or another failure (a bad version or cost, say). */
  datatype CompareOutcome = Matches | Mismatch | CompareFailed(err: Error)

  /** The bcrypt cost HashPassword asks for. */
  const HashCost: nat := 12

  /** bcrypt's shortest well-formed hash, in bytes (minHashSize). */
  const MinHashSize: nat := 59

  /** bcrypt.ErrHashTooShort. */
  const ErrHashTooShort: Error :=
    Sentinel("bcrypt", "crypto/bcrypt: hashedSecret too short to be a bcrypted password")

  /** bcrypt.InvalidHashPrefixError for the byte a hash started with: a value of
      its own type, so no sentinel matches it. */
  function InvalidHashPrefixError(c: char): (e: Error)
    ensures forall t: Error :: t.Sentinel? ==> !Is(e, t)
  {
    Plain(InvalidHashPrefixText(c))
  }

  /** The text of bcrypt.InvalidHashPrefixError, up to the byte it quotes. */
  const InvalidHashPrefixHead: string := "crypto/bcrypt: bcrypt hashes must start with '$', but hashedSecret started with '"

  /** The text of bcrypt.InvalidHashPrefixError. */
  function InvalidHashPrefixText(c: char): string {
    InvalidHashPrefixHead + [c] + "'"
  }

  /** The bytes of a []byte read as a Go string, one character per byte. */
  function Latin1(d: Digest): (s: string)
    ensures |s| == |d| && forall i :: 0 <= i < |d| ==> s[i] as int == d[i] as int
  {
    seq(|d|, i requires 0 <= i < |d| => d[i] as int as char)
  }

  /** The lower-case hexadecimal digit of a value below 16. */
  function HexDigit(n: int): char
    requires 0 <= n < 16
  {
    "0123456789abcdef"[n]
  }

  /** hex.EncodeToString: two lower-case digits per byte, high half first, so
      the text is twice as long and contains only hexadecimal digits. */
  function HexText(d: Digest): (s: string)
    ensures |s| == 2 * |d|
    ensures forall i :: 0 <= i < |s| ==> s[i] in "0123456789abcdef"
  {
    if d == [] then []
    else
      var rest := HexText(d[1..]);
      var head := [HexDigit(d[0] as int / 16), HexDigit(d[0] as int % 16)];
      assert forall i :: 0 <= i < |head + rest| ==> (head + rest)[i] == (if i < 2 then head[i] else rest[i - 2]);
      head + rest
  }

  /** bcrypt.CompareHashAndPassword(hash, password): a hash shorter than
      MinHashSize bytes is ErrHashTooShort and one whose first byte is not '$'
      an InvalidHashPrefixError; only a hash that passes both checks reaches the
      rest of the comparison, whose verdict is `verdict(hash, password)`. */
  function BcryptCompare(hash: string, password: string, verdict: (string, string) -> CompareOutcome)
    : CompareOutcome
  {
    if |hash| < MinHashSize then CompareFailed(ErrHashTooShort)
    else if hash[0] != '$' then CompareFailed(InvalidHashPrefixError(hash[0]))
    else verdict(hash, password)
  }

  /** The result ComparePassword builds from bcrypt's verdict: a mismatch is
      "incorrect password: " around bcrypt's mismatch error, any other failure
      is passed on as it is. */
  function CompareResult(outcome: CompareOutcome): Option<Error> {
    match outcome
    case Matches => None
    case Mismatch => Some(Wrap("incorrect password: ", ErrMismatchedHashAndPassword))
    case CompareFailed(e) => Some(e)
  }

  /**
   * ComparePassword as written: it hashes the STORED hash with SHA-256 and hands
   * the hex text of that digest to bcrypt as the hash. Hex digits are never '$',
   * so bcrypt refuses that text before looking at the password: the comparison
   * never succeeds, and never reports a wrong password either.
   */
  function ComparePassword(storedHash: Digest, password: string, sha256: string -> Digest,
                           verdict: (string, string) -> CompareOutcome): (r: Option<Error>)
    ensures r.Some? && !Is(r.value, ErrInvalidPassword)
    ensures |sha256(Latin1(storedHash))| == 32 ==>
              r == Some(InvalidHashPrefixError(HexText(sha256(Latin1(storedHash)))[0]))
  {
    var shaHex := HexText(sha256(Latin1(storedHash)));
    assert |shaHex| > 0 ==> shaHex[0] != '$';
    CompareResult(BcryptCompare(shaHex, password, verdict))
  }

  /**
   * ComparePassword as evidently intended: bcrypt compares the stored hash with
   * the hex SHA-256 text of the password, the same text HashPassword gives
   * bcrypt. Nil exactly when bcrypt accepts; a wrong password matches
   * ErrInvalidPassword; another failure is passed on.
   */
  function ComparePasswordFixed(storedHash: Digest, password: string, sha256: string -> Digest,
                                verdict: (string, string) -> CompareOutcome): (r: Option<Error>)
    ensures r.None? <==> BcryptCompare(Latin1(storedHash), HexText(sha256(password)), verdict).Matches?
    ensures BcryptCompare(Latin1(storedHash), HexText(sha256(password)), verdict).Mismatch? ==>
              Is(r.value, ErrInvalidPassword)
              && Message(r.value) == "incorrect password: " + Message(ErrMismatchedHashAndPassword)
    ensures BcryptCompare(Latin1(storedHash), HexText(sha256(password)), verdict).CompareFailed? ==>
              r == Some(BcryptCompare(Latin1(storedHash), HexText(sha256(password)), verdict).err)
  {
    CompareResult(BcryptCompare(Latin1(storedHash), HexText(sha256(password)), verdict))
  }

  /** HashPassword: bcrypt of the hex SHA-256 text of the
      password; `generate` stands for bcrypt.GenerateFromPassword with its random
      salt, at cost HashCost. ErrHashTooShort is wrapped "hash too short: ", any other failure is
      passed on. */
  function HashPassword(password: string, sha256: string -> Digest, generate: string -> Result<Digest>)
    : (r: Result<Digest>)
    ensures r.Ok? <==> generate(HexText(sha256(password))).Ok?
    ensures r.Ok? ==> r.value == generate(HexText(sha256(password))).value
    ensures r.Fail? && Is(generate(HexText(sha256(password))).error, ErrHashTooShort) ==>
              r.error == Wrap("hash too short: ", generate(HexText(sha256(password))).error)
    ensures r.Fail? && !Is(generate(HexText(sha256(password))).error, ErrHashTooShort) ==>
              r.error == generate(HexText(sha256(password))).error
  {
    match generate(HexText(sha256(password)))
    case Ok(h) => Ok(h)
    case Fail(e) => if Is(e, ErrHashTooShort) then Fail(Wrap("hash too short: ", e)) else Fail(e)
  }

  /** What bcrypt promises of a hash it generated: a well-formed hash (long
      enough, starting with '$') that its comparison accepts for the secret it
      was generated from. */
  ghost predicate BcryptAgrees(generate: string -> Result<Digest>, verdict: (string, string) -> CompareOutcome) {
    forall secret: string :: generate(secret).Ok? ==>
      |generate(secret).value| >= MinHashSize && generate(secret).value[0] as int == '$' as int
      && verdict(Latin1(generate(secret).value), secret) == Matches
  }

  /**
   * A hash HashPassword produced is accepted by the corrected comparison for the
   * same password, and refused by ComparePassword as written: the round trip
   * the two functions are meant to complete holds only for the corrected one.
   */
  lemma HashThenCompare(password: string, sha256: string -> Digest, generate: string -> Result<Digest>,
                        verdict: (string, string) -> CompareOutcome)
    requires BcryptAgrees(generate, verdict)
    requires HashPassword(password, sha256, generate).Ok?
    ensures ComparePasswordFixed(HashPassword(password, sha256, generate).value, password, sha256, verdict).None?
    ensures ComparePassword(HashPassword(password, sha256, generate).value, password, sha256, verdict).Some?
  {
    var secret := HexText(sha256(password));
    var h := generate(secret).value;
    assert Latin1(h)[0] == '$';
  }

  // ---- signed access and refresh tokens ----

  /** authz.JWTData. */
  datatype JwtData = JwtData(duration: int, userId: Uuid, role: string, serviceName: string)

  /** authz.Payload with its registered claims. */
  datatype Payload = Payload(
    userId: Uuid, roleId: string, expiresAt: Time, issuedAt: Time, id: string, issuer: string)

  /** authz.NewPayload: a fresh id (or the generator's error), issued now and
      expiring `duration` later. */
  function NewPayload(data: JwtData, freshId: Result<Uuid>, now: Time): (r: Result<Payload>)
    ensures r.Ok? <==> freshId.Ok?
    ensures r.Ok? ==>
      r.value.expiresAt == r.value.issuedAt + data.duration && r.value.issuedAt == now
      && r.value.id == freshId.value.text && r.value.userId == data.userId
      && r.value.roleId == data.role && r.value.issuer == data.serviceName
  {
    match freshId
    case Fail(e) => Fail(e)
    case Ok(id) => Ok(Payload(data.userId, data.role, now + data.duration, now, id.text, data.serviceName))
  }

  /** JWTAuthMaker.GenerateToken: the payload and the token signing produced for
      it; `sign` stands for HS512 signing with the maker's key. */
  function MintToken(data: JwtData, freshId: Result<Uuid>, now: Time, sign: Payload -> Result<string>)
    : (r: Result<(string, Payload)>)
    ensures r.Ok? <==> freshId.Ok? && sign(NewPayload(data, freshId, now).value).Ok?
    ensures r.Ok? ==> r.value.1 == NewPayload(data, freshId, now).value && r.value.0 == sign(r.value.1).value
    ensures freshId.Fail? ==> r == Fail(Wrap("generate token: ", freshId.error))
    ensures freshId.Ok? && sign(NewPayload(data, freshId, now).value).Fail? ==>
              r == Fail(Wrap("signed jwt token: ", sign(NewPayload(data, freshId, now).value).error))
  {
    match NewPayload(data, freshId, now)
    case Fail(e) => Fail(Wrap("generate token: ", e))
    case Ok(p) =>
      match sign(p)
      case Fail(e) => Fail(Wrap("signed jwt token: ", e))
      case Ok(t) => Ok((t, p))
  }
}
