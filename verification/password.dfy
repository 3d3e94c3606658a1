/**
 * Password records (src/security/password.ts).
 *
 * A stored record is `hex(salt) ":" hex(key)`, where the key is derived by
 * scrypt from the NFKC-normalised password and the salt's hex TEXT. The
 * scrypt KDF and NFKC normalisation are foreign code and appear here as
 * function parameters; a Dafny function is deterministic, which is all the
 * round trip needs of them. The salt, drawn from a random source in the
 * source, is a parameter too.
 */
module PasswordHashing {
  import opened Common
  import opened Hex

  /** `accountSecurity.passwordHashing` of the configuration. */
  datatype HashingConfig = HashingConfig(
    costFactor: int, parallelization: int, blockSize: int, derivedKeyLength: int)

  /** The options object handed to scrypt. */
  datatype ScryptParams = ScryptParams(N: int, p: int, r: int, dkLen: int, maxmem: int)

  /** scrypt(password, salt, params): the derived key, or None when it throws. */
  type Kdf = (string, string, ScryptParams) -> Option<seq<byte>>

  /** `String.prototype.normalize("NFKC")`. */
  type Normalizer = string -> string

  datatype HashError =
    | KdfFailed        // scrypt threw (for instance, its memory bound was exceeded)
    | MalformedRecord  // the record has no key part, or the key part is not hex

  /** Number of random bytes in a salt. */
  const SaltLength: nat := 16

  /** The scrypt options built from the configuration. */
  function ScryptParamsFor(cfg: HashingConfig): (sp: ScryptParams)
    ensures sp.N == cfg.costFactor && sp.p == cfg.parallelization
    ensures sp.r == cfg.blockSize && sp.dkLen == cfg.derivedKeyLength
    ensures sp.maxmem == 256 * cfg.costFactor * cfg.blockSize
  {
    ScryptParams(
      N := cfg.costFactor,
      p := cfg.parallelization,
      r := cfg.blockSize,
      dkLen := cfg.derivedKeyLength,
      maxmem := 128 * cfg.costFactor * cfg.blockSize * 2)
  }

  /** `generateKey`: scrypt over the normalised password and the salt text. */
  function GenerateKey(password: string, salt: string, cfg: HashingConfig,
                       nfkc: Normalizer, kdf: Kdf): (key: Option<seq<byte>>)
    ensures key == kdf(nfkc(password), salt,
                       ScryptParams(cfg.costFactor, cfg.parallelization, cfg.blockSize,
                                    cfg.derivedKeyLength, 256 * cfg.costFactor * cfg.blockSize))
  {
    kdf(nfkc(password), salt, ScryptParamsFor(cfg))
  }

  /** `String.prototype.split(":")`: the pieces between separators, at least one. */
  function Split(s: string): (parts: seq<string>)
    ensures |parts| >= 1
  {
    if s == [] then [[]]
    else if s[0] == ':' then [[]] + Split(s[1..])
    else
      var rest := Split(s[1..]);
      [[s[0]] + rest[0]] + rest[1..]
  }

  /** `timingSafeEqual`, seen only for its result. */
  function TimingSafeEqual(a: seq<byte>, b: seq<byte>): (equal: bool)
    ensures equal <==> |a| == |b| && forall i :: 0 <= i < |a| ==> a[i] == b[i]
  {
    a == b
  }

  /** `hashPassword`, with the 16 random salt bytes as a parameter. */
  function HashPassword(password: string, saltBytes: seq<byte>, cfg: HashingConfig,
                        nfkc: Normalizer, kdf: Kdf): (r: Result<string, HashError>)
    requires |saltBytes| == SaltLength
    ensures r.Err? <==> GenerateKey(password, Encode(saltBytes), cfg, nfkc, kdf).None?
    ensures r.Err? ==> r.error == KdfFailed
  {
    var salt := Encode(saltBytes);
    match GenerateKey(password, salt, cfg, nfkc, kdf)
    case None => Err(KdfFailed)
    case Some(key) => Ok(salt + ":" + Encode(key))
  }

  /**
   * `verifyPassword`: the text before the first ":" is the salt, the text
   * between the first and the second ":" the stored key. The key is
   * re-derived before the stored key is decoded.
   */
  function VerifyPassword(hash: string, password: string, cfg: HashingConfig,
                          nfkc: Normalizer, kdf: Kdf): (r: Result<bool, HashError>)
    ensures r.Err? && r.error == KdfFailed <==> GenerateKey(password, Split(hash)[0], cfg, nfkc, kdf).None?
  {
    var parts := Split(hash);
    match GenerateKey(password, parts[0], cfg, nfkc, kdf)
    case None => Err(KdfFailed)
    case Some(targetKey) =>
      if |parts| < 2 then Err(MalformedRecord)
      else
        match Decode(parts[1])
        case None => Err(MalformedRecord)
        case Some(keyBytes) => Ok(TimingSafeEqual(targetKey, keyBytes))
  }

  // ---------------------------------------------------------------------
  // Splitting

  lemma {:induction false} SplitWithoutSeparator(s: string)
    requires ':' !in s
    ensures Split(s) == [s]
  {
    if s != [] {
      SplitWithoutSeparator(s[1..]);
      assert [s[0]] + s[1..] == s;
    }
  }

  /** Splitting at the first separator. */
  lemma {:induction false} SplitAtFirst(a: string, b: string)
    requires ':' !in a
    ensures Split(a + ":" + b) == [a] + Split(b)
  {
    if a == [] {
      assert a + ":" + b == [':'] + b;
      assert (a + ":" + b)[1..] == b;
    } else {
      var s := a + ":" + b;
      assert s[1..] == a[1..] + ":" + b;
      SplitAtFirst(a[1..], b);
      assert [a[0]] + a[1..] == a;
    }
  }

  // ---------------------------------------------------------------------
  // Record layout

  /**
   * A record made by `hashPassword` is the 32-character hex salt, one ":",
   * then the hex of the derived key, and splits back into exactly those two.
   */
  lemma HashRecordLayout(password: string, saltBytes: seq<byte>, cfg: HashingConfig,
                         nfkc: Normalizer, kdf: Kdf)
    requires |saltBytes| == SaltLength
    requires HashPassword(password, saltBytes, cfg, nfkc, kdf).Ok?
    ensures var record := HashPassword(password, saltBytes, cfg, nfkc, kdf).value;
            var key := kdf(nfkc(password), Encode(saltBytes), ScryptParamsFor(cfg));
            && key.Some?
            && |record| == 33 + 2 * |key.value|
            && record[..32] == Encode(saltBytes)
            && ':' !in record[..32]
            && record[32] == ':'
            && Split(record) == [Encode(saltBytes), Encode(key.value)]
  {
    var salt := Encode(saltBytes);
    var key := kdf(nfkc(password), salt, ScryptParamsFor(cfg)).value;
    var record := salt + ":" + Encode(key);
    assert record[..32] == salt;
    SplitAtFirst(salt, Encode(key));
    SplitWithoutSeparator(Encode(key));
  }

  /**
   * For any record whose salt text has no ":" and whose second piece is a
   * hex key, possibly followed by further ":"-separated pieces, verification
   * is exactly whether the re-derived key equals the stored key.
   */
  lemma VerifyWellFormed(salt: string, key: seq<byte>, rest: string, password: string,
                         cfg: HashingConfig, nfkc: Normalizer, kdf: Kdf)
    requires ':' !in salt
    requires rest == [] || rest[0] == ':'
    ensures VerifyPassword(salt + ":" + Encode(key) + rest, password, cfg, nfkc, kdf)
            == match GenerateKey(password, salt, cfg, nfkc, kdf)
               case None => Err(KdfFailed)
               case Some(derived) => Ok(derived == key)
  {
    var enc := Encode(key);
    var hash := salt + ":" + enc + rest;
    assert hash == salt + ":" + (enc + rest);
    SplitAtFirst(salt, enc + rest);
    if rest == [] {
      assert enc + rest == enc;
      SplitWithoutSeparator(enc);
    } else {
      assert enc + rest == enc + ":" + rest[1..];
      SplitAtFirst(enc, rest[1..]);
    }
    assert Split(hash)[1] == enc;
    DecodeEncode(key);
  }

  // ---------------------------------------------------------------------
  // Round trip

  /** A password verifies against the record hashed from it. */
  lemma RoundTrip(password: string, saltBytes: seq<byte>, cfg: HashingConfig,
                  nfkc: Normalizer, kdf: Kdf)
    requires |saltBytes| == SaltLength
    requires HashPassword(password, saltBytes, cfg, nfkc, kdf).Ok?
    ensures VerifyPassword(HashPassword(password, saltBytes, cfg, nfkc, kdf).value,
                           password, cfg, nfkc, kdf) == Ok(true)
  {
    NormalizedEquivalent(password, password, saltBytes, cfg, nfkc, kdf);
  }

  /** Passwords with the same NFKC normalisation are interchangeable. */
  lemma NormalizedEquivalent(p1: string, p2: string, saltBytes: seq<byte>, cfg: HashingConfig,
                             nfkc: Normalizer, kdf: Kdf)
    requires |saltBytes| == SaltLength
    requires nfkc(p1) == nfkc(p2)
    requires HashPassword(p1, saltBytes, cfg, nfkc, kdf).Ok?
    ensures VerifyPassword(HashPassword(p1, saltBytes, cfg, nfkc, kdf).value,
                           p2, cfg, nfkc, kdf) == Ok(true)
  {
    var salt := Encode(saltBytes);
    var key := GenerateKey(p1, salt, cfg, nfkc, kdf).value;
    assert HashPassword(p1, saltBytes, cfg, nfkc, kdf).value == salt + ":" + Encode(key) + [];
    VerifyWellFormed(salt, key, [], p2, cfg, nfkc, kdf);
  }

  /**
   * A different password is accepted against a hashed record exactly when
   * it derives the same key under that record's salt.
   */
  lemma VerifyOtherPassword(p1: string, p2: string, saltBytes: seq<byte>, cfg: HashingConfig,
                            nfkc: Normalizer, kdf: Kdf)
    requires |saltBytes| == SaltLength
    requires HashPassword(p1, saltBytes, cfg, nfkc, kdf).Ok?
    requires GenerateKey(p2, Encode(saltBytes), cfg, nfkc, kdf).Some?
    ensures VerifyPassword(HashPassword(p1, saltBytes, cfg, nfkc, kdf).value, p2, cfg, nfkc, kdf)
            == Ok(GenerateKey(p2, Encode(saltBytes), cfg, nfkc, kdf)
                  == GenerateKey(p1, Encode(saltBytes), cfg, nfkc, kdf))
  {
    var salt := Encode(saltBytes);
    var key := GenerateKey(p1, salt, cfg, nfkc, kdf).value;
    assert HashPassword(p1, saltBytes, cfg, nfkc, kdf).value == salt + ":" + Encode(key) + [];
    VerifyWellFormed(salt, key, [], p2, cfg, nfkc, kdf);
  }

  /** Hashing under two different salts never yields the same record. */
  lemma DistinctSaltsDistinctRecords(password: string, s1: seq<byte>, s2: seq<byte>,
                                     cfg: HashingConfig, nfkc: Normalizer, kdf: Kdf)
    requires |s1| == SaltLength && |s2| == SaltLength && s1 != s2
    requires HashPassword(password, s1, cfg, nfkc, kdf).Ok?
    requires HashPassword(password, s2, cfg, nfkc, kdf).Ok?
    ensures HashPassword(password, s1, cfg, nfkc, kdf) != HashPassword(password, s2, cfg, nfkc, kdf)
  {
    HashRecordLayout(password, s1, cfg, nfkc, kdf);
    HashRecordLayout(password, s2, cfg, nfkc, kdf);
    if Encode(s1) == Encode(s2) {
      EncodeInjective(s1, s2);
    }
  }

  /** A record without a ":" is malformed unless scrypt itself fails first. */
  lemma NoSeparatorIsMalformed(hash: string, password: string, cfg: HashingConfig,
                               nfkc: Normalizer, kdf: Kdf)
    requires ':' !in hash
    requires GenerateKey(password, hash, cfg, nfkc, kdf).Some?
    ensures VerifyPassword(hash, password, cfg, nfkc, kdf) == Err(MalformedRecord)
  {
    SplitWithoutSeparator(hash);
  }
}
