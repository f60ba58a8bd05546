/** The stored OpenRouter API keys: one encrypted key per user, kept in the
    `api_keys` table, and the service that encrypts, decrypts and masks them. */
module ApiKeys {
  import opened Wrappers
  import opened Text
  import opened Tables
  import opened Hex

  // ---------------------------------------------------------------- repository

  datatype ApiKeyRecord = ApiKeyRecord(
    id: Id, userId: Id, encryptedKey: string, createdAt: Instant, updatedAt: Instant)

  function RecordId(r: ApiKeyRecord): Id { r.id }
  function RecordUser(r: ApiKeyRecord): Id { r.userId }

  /** What the database reports when the unique `user_id` constraint rejects an insert. */
  const UniqueViolationMessage := "Validation error"
  const ApiKeyNotFoundMessage := "API key not found"

  /** The `api_keys` table. `user_id` is unique, so a user has at most one key. */
  class ApiKeyRepository {
    var rows: seq<ApiKeyRecord>
    var nextId: Id

    ghost predicate Valid()
      reads this
    {
      && UniqueKeys(rows, RecordId)
      && KeysBelow(rows, RecordId, nextId)
      && UniqueKeys(rows, RecordUser)
    }

    constructor ()
      ensures Valid() && rows == [] && nextId == 0
    {
      rows := [];
      nextId := 0;
    }

    /** `findByUser`: the user's key, if one is stored. */
    function FindByUser(userId: Id): (r: Option<ApiKeyRecord>)
      reads this
      ensures r.Some? ==> r.value in rows && r.value.userId == userId
      ensures r.None? <==> forall i | 0 <= i < |rows| :: rows[i].userId != userId
    {
      Find(rows, RecordUser, userId)
    }

    /** `create`: inserts a row stamped `now`; a second key for the same user
        breaks the unique constraint and nothing is inserted. */
    method Create(userId: Id, encryptedKey: string, now: Instant) returns (r: Result<ApiKeyRecord>)
      requires Valid()
      modifies this
      ensures Valid()
      ensures old(FindByUser(userId)).Some? ==>
        r == Err(UniqueViolationMessage) && rows == old(rows) && nextId == old(nextId)
      ensures old(FindByUser(userId)).None? ==>
        && r == Ok(ApiKeyRecord(old(nextId), userId, encryptedKey, now, now))
        && rows == old(rows) + [r.value]
        && nextId == old(nextId) + 1
    {
      if FindByUser(userId).Some? {
        return Err(UniqueViolationMessage);
      }
      var record := ApiKeyRecord(nextId, userId, encryptedKey, now, now);
      AppendKeepsKeys(rows, RecordId, record, nextId);
      rows := rows + [record];
      nextId := nextId + 1;
      r := Ok(record);
    }

    /** `update`: replaces the encrypted key of the user's row, or fails when
        the user has none. Saving an unchanged key writes nothing, so
        `updatedAt` moves only when the key differs. */
    method Update(userId: Id, encryptedKey: string, now: Instant) returns (r: Result<ApiKeyRecord>)
      requires Valid()
      modifies this
      ensures Valid() && nextId == old(nextId)
      ensures old(FindByUser(userId)).None? ==> r == Err(ApiKeyNotFoundMessage) && rows == old(rows)
      ensures old(FindByUser(userId)).Some? ==>
        && r == Ok(if old(FindByUser(userId)).value.encryptedKey == encryptedKey
                   then old(FindByUser(userId)).value
                   else old(FindByUser(userId)).value.(encryptedKey := encryptedKey, updatedAt := now))
        && r.value.encryptedKey == encryptedKey
        && rows == Replace(old(rows), RecordId, r.value.id, r.value)
    {
      var found := FindByUser(userId);
      if found.None? {
        return Err(ApiKeyNotFoundMessage);
      }
      var record := if found.value.encryptedKey == encryptedKey then found.value
                    else found.value.(encryptedKey := encryptedKey, updatedAt := now);
      ReplaceKeepsKeys(rows, RecordId, record.id, record, nextId);
      var updated := Replace(rows, RecordId, record.id, record);
      forall i | 0 <= i < |rows| ensures updated[i].userId == rows[i].userId {
        var k :| 0 <= k < |rows| && rows[k] == found.value;
        assert rows[i].id == record.id ==> i == k;
      }
      rows := updated;
      r := Ok(record);
    }

    /** `delete`: removes the user's row if there is one (with `user_id`
        unique, that is every row of the user). */
    method Delete(userId: Id)
      requires Valid()
      modifies this
      ensures Valid() && nextId == old(nextId)
      ensures FindByUser(userId).None?
      ensures rows == Filter(old(rows), KeyNot(RecordUser, userId))
    {
      var kept := Filter(rows, KeyNot(RecordUser, userId));
      FilterKeepsKeys(rows, KeyNot(RecordUser, userId), RecordId, nextId);
      FilterKeepsUnique(rows, KeyNot(RecordUser, userId), RecordUser);
      if FindByUser(userId).Some? {
        rows := kept;
      } else {
        FilterAll(rows, KeyNot(RecordUser, userId));
      }
    }
  }

  // ---------------------------------------------------------------- encryption

  type Iv = s: seq<byte> | |s| == 16 witness seq(16, _ => 0)

  /** AES-256-CBC as `crypto` provides it, not modelled: `encipher` maps key, IV
      and UTF-8 text to ciphertext bytes; `decipher` maps key, IV bytes and
      ciphertext bytes to the text, or fails (a wrong IV length, bad padding). */
  datatype Cipher = Cipher(
    encipher: (string, seq<byte>, string) -> seq<byte>,
    decipher: (string, seq<byte>, seq<byte>) -> Result<string>)

  /** The property of AES the service relies on: with a 16-byte IV, deciphering
      undoes enciphering under the same key and IV. */
  ghost predicate Inverts(c: Cipher) {
    forall key, iv, text | |iv| == 16 :: c.decipher(key, iv, c.encipher(key, iv, text)) == Ok(text)
  }

  const DefaultEncryptionKey := "megazord-encryption-key-32chars"
  const InvalidFormatMessage := "Invalid encrypted key format"

  /** `key.padEnd(32, '0').substring(0, 32)`: exactly 32 characters, the key's
      own first ones, then zeros. */
  function NormaliseKey(key: string): (r: string)
    ensures |r| == 32
    ensures |key| >= 32 ==> r == key[..32]
    ensures |key| < 32 ==> r[..|key|] == key && forall k | |key| <= k < 32 :: r[k] == '0'
  {
    PadEnd(key, 32, '0')[..32]
  }

  /** The encryption key from `ENCRYPTION_KEY`, where unset and empty both mean
      the built-in default. */
  function EncryptionKeyFrom(env: Option<string>): (r: string)
    ensures |r| == 32
  {
    NormaliseKey(if env.Some? && env.value != "" then env.value else DefaultEncryptionKey)
  }

  /** The built-in default has 31 characters, so it is used with one "0"
      appended. */
  lemma DefaultKeyIsPadded()
    ensures EncryptionKeyFrom(None) == DefaultEncryptionKey + "0"
  {
    assert |DefaultEncryptionKey| == 31;
    var r := EncryptionKeyFrom(None);
    assert r[..31] == DefaultEncryptionKey;
    assert r == r[..31] + r[31..];
    assert r[31..] == "0";
  }

  /** `encrypt`: the IV and the ciphertext, both in hex, joined by `:`. */
  function Encrypt(c: Cipher, encryptionKey: string, plaintext: string, iv: Iv): (r: string)
    ensures Split(r, ':') == [Encode(iv), Encode(c.encipher(encryptionKey, iv, plaintext))]
  {
    var ivHex := Encode(iv);
    var dataHex := Encode(c.encipher(encryptionKey, iv, plaintext));
    EncodeHasNoColon(iv);
    EncodeHasNoColon(c.encipher(encryptionKey, iv, plaintext));
    SplitAround(ivHex, dataHex, ':');
    ivHex + [':'] + dataHex
  }

  /** `decrypt`: rejects text that does not split into exactly two parts at `:`,
      then deciphers the hex-decoded ciphertext with the hex-decoded IV. */
  function Decrypt(c: Cipher, encryptionKey: string, stored: string): (r: Result<string>)
    ensures Occurrences(stored, ':') != 1 ==> r == Err(InvalidFormatMessage)
  {
    var parts := Split(stored, ':');
    SplitCount(stored, ':');
    if |parts| != 2 then Err(InvalidFormatMessage)
    else c.decipher(encryptionKey, Decode(parts[0]), Decode(parts[1]))
  }

  /** Decrypting what `encrypt` wrote gives the plaintext back, whatever the IV. */
  lemma DecryptEncrypt(c: Cipher, encryptionKey: string, plaintext: string, iv: Iv)
    requires Inverts(c)
    ensures Decrypt(c, encryptionKey, Encrypt(c, encryptionKey, plaintext, iv)) == Ok(plaintext)
  {
    DecodeEncode(iv);
    DecodeEncode(c.encipher(encryptionKey, iv, plaintext));
  }

  /** `mask`: "***" for a key of at most 8 characters, otherwise its first four
      and last four characters around "...". */
  function Mask(key: string): (r: string)
    ensures |key| <= 8 ==> r == "***"
    ensures |key| > 8 ==> |r| == 11 && r[..4] == key[..4] && r[4..7] == "..." && r[7..] == key[|key| - 4..]
  {
    if |key| <= 8 then "***" else key[..4] + "..." + key[|key| - 4..]
  }

  /** Two long keys get the same mask exactly when they share their first four
      and last four characters: the mask shows those and nothing else. */
  lemma MaskShowsOnlyEnds(k1: string, k2: string)
    requires |k1| > 8 && |k2| > 8
    ensures Mask(k1) == Mask(k2) <==> k1[..4] == k2[..4] && k1[|k1| - 4..] == k2[|k2| - 4..]
  {
    if Mask(k1) == Mask(k2) {
      assert Mask(k1)[..4] == Mask(k2)[..4];
      assert Mask(k1)[7..] == Mask(k2)[7..];
    }
  }

  // ---------------------------------------------------------------- service

  datatype ApiKeyResponse = ApiKeyResponse(id: Id, maskedKey: string, createdAt: Instant, updatedAt: Instant)

  const AlreadyStoredMessage := "User already has an API key. Use update instead."

  function ResponseFor(record: ApiKeyRecord, key: string): ApiKeyResponse {
    ApiKeyResponse(record.id, Mask(key), record.createdAt, record.updatedAt)
  }

  /** The service over the repository. The encryption key is fixed when the
      service is built; each encryption takes a fresh IV as a parameter. */
  class ApiKeyService {
    const repository: ApiKeyRepository
    const encryptionKey: string
    const cipher: Cipher

    ghost predicate Valid()
      reads this, repository
    {
      repository.Valid() && |encryptionKey| == 32 && Inverts(cipher)
    }

    constructor (repository: ApiKeyRepository, env: Option<string>, cipher: Cipher)
      requires repository.Valid() && Inverts(cipher)
      ensures Valid()
      ensures this.repository == repository && encryptionKey == EncryptionKeyFrom(env) && this.cipher == cipher
    {
      this.repository := repository;
      this.encryptionKey := EncryptionKeyFrom(env);
      this.cipher := cipher;
    }

    /** `getDecrypted`: the user's plaintext key, or none when nothing is stored. */
    function GetDecrypted(userId: Id): (r: Result<Option<string>>)
      reads this, repository
      ensures repository.FindByUser(userId).None? <==> r == Ok(None)
    {
      match repository.FindByUser(userId)
      case None => Ok(None)
      case Some(record) =>
        match Decrypt(cipher, encryptionKey, record.encryptedKey)
        case Ok(key) => Ok(Some(key))
        case Err(m) => Err(m)
    }

    /** `get`: the user's key masked, or none when nothing is stored. */
    function Get(userId: Id): (r: Result<Option<ApiKeyResponse>>)
      reads this, repository
      ensures r.Ok? && r.value.Some? <==> GetDecrypted(userId).Ok? && GetDecrypted(userId).value.Some?
      ensures r.Ok? && r.value.Some? ==> r.value.value.maskedKey == Mask(GetDecrypted(userId).value.value)
      ensures repository.FindByUser(userId).None? ==> r == Ok(None)
      ensures r.Err? <==> GetDecrypted(userId).Err?
      ensures r.Err? ==> r.message == GetDecrypted(userId).message
    {
      match repository.FindByUser(userId)
      case None => Ok(None)
      case Some(record) =>
        match Decrypt(cipher, encryptionKey, record.encryptedKey)
        case Ok(key) => Ok(Some(ResponseFor(record, key)))
        case Err(m) => Err(m)
    }

    /** `store`: refuses a second key, otherwise encrypts and inserts the key and
        answers with its mask; the stored key then decrypts to the one given. */
    method Store(userId: Id, key: string, iv: Iv, now: Instant) returns (r: Result<ApiKeyResponse>)
      requires Valid()
      modifies repository
      ensures Valid()
      ensures old(repository.FindByUser(userId)).Some? ==>
        r == Err(AlreadyStoredMessage) && unchanged(repository)
      ensures old(repository.FindByUser(userId)).None? ==>
        && r.Ok? && r.value.maskedKey == Mask(key) && r.value.id == old(repository.nextId)
        && repository.rows == old(repository.rows) + [ApiKeyRecord(
             old(repository.nextId), userId, Encrypt(cipher, encryptionKey, key, iv), now, now)]
        && GetDecrypted(userId) == Ok(Some(key))
        && Get(userId) == Ok(Some(r.value))
    {
      if repository.FindByUser(userId).Some? {
        return Err(AlreadyStoredMessage);
      }
      var encrypted := Encrypt(cipher, encryptionKey, key, iv);
      var created := repository.Create(userId, encrypted, now);
      var record := created.value;
      FindMember(repository.rows, RecordUser, record);
      DecryptEncrypt(cipher, encryptionKey, key, iv);
      r := Ok(ResponseFor(record, key));
    }

    /** `update`: encrypts the new key and replaces the stored one, failing when
        the user has none; answers with the new key's mask. */
    method Update(userId: Id, key: string, iv: Iv, now: Instant) returns (r: Result<ApiKeyResponse>)
      requires Valid()
      modifies repository
      ensures Valid() && repository.nextId == old(repository.nextId)
      ensures old(repository.FindByUser(userId)).None? ==>
        r == Err(ApiKeyNotFoundMessage) && repository.rows == old(repository.rows)
      ensures old(repository.FindByUser(userId)).Some? ==>
        && r.Ok? && r.value.maskedKey == Mask(key)
        && r.value.id == old(repository.FindByUser(userId)).value.id
        && GetDecrypted(userId) == Ok(Some(key))
        && (forall u | u != userId :: repository.FindByUser(u) == old(repository.FindByUser(u)))
    {
      var encrypted := Encrypt(cipher, encryptionKey, key, iv);
      ghost var before := repository.rows;
      var updated := repository.Update(userId, encrypted, now);
      if updated.Err? {
        return Err(updated.message);
      }
      var record := updated.value;
      ghost var k :| 0 <= k < |before| && before[k].userId == userId && before[k].id == record.id;
      assert repository.rows[k] == record;
      FindMember(repository.rows, RecordUser, record);
      DecryptEncrypt(cipher, encryptionKey, key, iv);
      forall u | u != userId ensures repository.FindByUser(u) == Find(before, RecordUser, u) {
        ReplaceFind(before, record, k, u);
      }
      r := Ok(ResponseFor(record, key));
    }

    /** `delete`: removes the user's key, if any. */
    method Delete(userId: Id)
      requires Valid()
      modifies repository
      ensures Valid() && repository.nextId == old(repository.nextId)
      ensures repository.rows == Filter(old(repository.rows), KeyNot(RecordUser, userId))
      ensures GetDecrypted(userId) == Ok(None)
      ensures forall u | u != userId :: repository.FindByUser(u) == old(repository.FindByUser(u))
    {
      ghost var before := repository.rows;
      repository.Delete(userId);
      forall u | u != userId ensures repository.FindByUser(u) == Find(before, RecordUser, u) {
        FindAfterRemove(before, RecordUser, userId, u);
      }
    }
  }

  /** Replacing row `k` by a row of the same user leaves every other user's
      lookup as it was. */
  lemma ReplaceFind(rows: seq<ApiKeyRecord>, v: ApiKeyRecord, k: nat, u: Id)
    requires UniqueKeys(rows, RecordId) && k < |rows| && rows[k].id == v.id && rows[k].userId == v.userId
    requires u != v.userId
    ensures Find(Replace(rows, RecordId, v.id, v), RecordUser, u) == Find(rows, RecordUser, u)
  {
    var r := Replace(rows, RecordId, v.id, v);
    assert forall i | 0 <= i < |rows| :: i != k ==> r[i] == rows[i];
    FindSameWhereKeyed(rows, r, RecordUser, u);
  }
}
