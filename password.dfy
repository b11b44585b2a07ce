/** Password records stored as `salt:digest` (server/utils/password.ts). The
    argon2id key derivation is a deterministic function supplied by the caller. */
module Password {
  import opened Strings
  import opened Hex

  /** argon2id's output with the library's default length of 32 bytes. */
  type DerivedKey = k: seq<bv8> | |k| == 32 witness seq(32, _ => 0 as bv8)

  /** The 16 random bytes drawn for each new record. */
  type SaltBytes = b: seq<bv8> | |b| == 16 witness seq(16, _ => 0 as bv8)

  /** argon2id(password, salt) with the fixed options t = 2, m = 4096, p = 3. */
  type Kdf = (string, string) -> DerivedKey

  /** `hashPassword`: the hex salt, a colon, and the hex of the key derived from it.
      Read back with `split(':')` the record has exactly two parts: a 32-digit
      salt and the 64-digit digest of the password under that salt. */
  function HashPassword(kdf: Kdf, password: string, saltBytes: SaltBytes): (stored: string)
    ensures var parts := Split(stored, ':');
            |parts| == 2 && |parts[0]| == 32 && |parts[1]| == 64
            && parts[0] == ToHex(saltBytes)
            && parts[1] == ToHex(kdf(password, parts[0]))
  {
    var salt := ToHex(saltBytes);
    var digest := ToHex(kdf(password, salt));
    SplitJoin([salt, digest], ':');
    assert Join([salt, digest], ':') == salt + [':'] + digest;
    salt + ":" + digest
  }

  /** `const [salt, digest] = stored.split(':')`: the first two segments, the
      second being `undefined` (here `""`) when there is no colon. */
  function StoredParts(stored: string): (parts: (string, string))
    ensures ':' !in parts.0 && ':' !in parts.1
    ensures ':' !in stored ==> parts == (stored, "")
    ensures ':' in stored ==> parts.0 + ":" + parts.1 == stored || parts.0 + ":" + parts.1 + ":" <= stored
  {
    var segments := Split(stored, ':');
    var parts := (segments[0], if |segments| > 1 then segments[1] else "");
    if ':' !in stored then
      SplitNoSeparator(stored, ':');
      parts
    else
      JoinPrefix(segments, ':');
      JoinPrefix(segments[1..], ':');
      assert Join(segments, ':') == segments[0] + [':'] + Join(segments[1..], ':');
      parts
  }

  /** `verifyPassword`. A record verifies only when it starts with a non-empty
      salt, a colon and the 64 hex digits of the password's key under that
      salt. */
  function VerifyPassword(kdf: Kdf, password: string, stored: string): (ok: bool)
    ensures ok ==> var (salt, digest) := StoredParts(stored);
                   salt != "" && |digest| == 64 && salt + ":" + digest <= stored
                   && digest == ToHex(kdf(password, salt))
  {
    var (salt, digest) := StoredParts(stored);
    if salt == "" || digest == "" then false
    else ToHex(kdf(password, salt)) == digest
  }

  /** A record made by HashPassword verifies with the same password. */
  lemma HashThenVerify(kdf: Kdf, password: string, saltBytes: SaltBytes)
    ensures VerifyPassword(kdf, password, HashPassword(kdf, password, saltBytes))
  {
  }

  /** Any record with a colon splits as `salt ':' digest tail`, where the tail is
      empty or starts with another colon. Verification accepts iff salt and digest
      are non-empty and the digest is the password's derived key under that salt;
      whatever follows the second colon is ignored. */
  lemma {:induction false} VerifyDecomposed(kdf: Kdf, password: string, salt: string, digest: string, tail: string)
    requires ':' !in salt && ':' !in digest
    requires tail == "" || tail[0] == ':'
    ensures VerifyPassword(kdf, password, salt + ":" + digest + tail)
            <==> salt != "" && digest != "" && ToHex(kdf(password, salt)) == digest
  {
    var stored := salt + ":" + digest + tail;
    assert stored == salt + [':'] + (digest + tail);
    SplitAfterSegment(salt, digest + tail, ':');
    if tail == "" {
      assert digest + tail == digest;
      SplitNoSeparator(digest, ':');
    } else {
      assert digest + tail == digest + [':'] + tail[1..];
      SplitAfterSegment(digest, tail[1..], ':');
    }
  }

  /** A record without a colon has no digest part and never verifies. */
  lemma VerifyWithoutColon(kdf: Kdf, password: string, stored: string)
    requires ':' !in stored
    ensures !VerifyPassword(kdf, password, stored)
  {
  }
}
