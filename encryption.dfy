/** The vault's persistence layer (src/lib/services/encryption.ts): a salt
    and an encrypted blob kept under two keys of the browser's local
    storage, the IV ‖ ciphertext framing of the blob, and the byte ↔
    binary-string loops around base64.

    The primitives the service calls but does not implement (PBKDF2 with
    HMAC-SHA256 as section 5.2 of RFC 8018 defines it, AES-GCM as section 7
    of NIST SP 800-38D defines it, base64 as section 4 of RFC 4648 defines
    it, UTF-8 text encoding and JSON) are fields of a `Primitives` value.
    What the service relies on them for is stated by `Sound`, which the
    lemmas take as a hypothesis. */
module Encryption {
  import opened Common
  import opened Types

  newtype byte = x: int | 0 <= x < 256

  const SaltKey: string := "aipad_vault_salt"
  const VaultKey: string := "aipad_vault_data"
  const SaltLength: nat := 16
  const IvLength: nat := 12
  const Pbkdf2Iterations: nat := 600000

  /** What `crypto.getRandomValues(new Uint8Array(16))` yields. */
  type Salt = s: seq<byte> | |s| == SaltLength
    witness [0, 0, 0, 0, 0, 0, 0, 0, 0, 0, 0, 0, 0, 0, 0, 0]

  /** What `crypto.getRandomValues(new Uint8Array(12))` yields. */
  type Iv = s: seq<byte> | |s| == IvLength
    witness [0, 0, 0, 0, 0, 0, 0, 0, 0, 0, 0, 0]

  datatype Primitives = Primitives(
    utf8Encode: string -> seq<byte>,
    utf8Decode: seq<byte> -> string,
    // password bytes, salt, iterations -> 256-bit AES-GCM key
    pbkdf2: (seq<byte>, seq<byte>, nat) -> seq<byte>,
    // key, iv, plaintext -> ciphertext with the tag appended
    aesGcmEncrypt: (seq<byte>, seq<byte>, seq<byte>) -> seq<byte>,
    // key, iv, ciphertext -> plaintext, or None when the tag does not verify
    aesGcmDecrypt: (seq<byte>, seq<byte>, seq<byte>) -> Option<seq<byte>>,
    btoa: string -> string,
    // None when the text is not base64
    atob: string -> Option<string>,
    stringify: seq<Secret> -> string,
    // None when the text is not JSON of a secret list
    parse: string -> Option<seq<Secret>>)

  /** A string whose characters all have codes below 256, as btoa accepts. */
  predicate IsBinary(s: string) {
    forall i :: 0 <= i < |s| ==> s[i] as int < 256
  }

  /** The round trips the service depends on. */
  ghost predicate Sound(p: Primitives) {
    && (forall s :: p.utf8Decode(p.utf8Encode(s)) == s)
    && (forall k, iv, m :: p.aesGcmDecrypt(k, iv, p.aesGcmEncrypt(k, iv, m)) == Some(m))
    && (forall s :: IsBinary(s) ==> p.atob(p.btoa(s)) == Some(s))
    && p.btoa("") == ""
    && (forall secrets :: p.parse(p.stringify(secrets)) == Some(secrets))
  }

  /** Authenticated decryption under a key other than the encrypting one fails. */
  ghost predicate RejectsOtherKeys(p: Primitives) {
    forall k1, k2, iv, m :: k1 != k2 ==> p.aesGcmDecrypt(k2, iv, p.aesGcmEncrypt(k1, iv, m)) == None
  }

  datatype VaultError = NoVaultFound | InvalidPassword | MalformedBase64 | MalformedJson

  /** The message of each error the service throws itself, and the name of
      the exception the library call throws for the other two. */
  function ErrorMessage(e: VaultError): string {
    match e
    case NoVaultFound => "No vault found"
    case InvalidPassword => "Invalid password"
    case MalformedBase64 => "InvalidCharacterError"
    case MalformedJson => "SyntaxError"
  }

  // ---------------------------------------------------------------------
  // Bytes and binary strings
  // ---------------------------------------------------------------------

  /** One character per byte, whose code is the byte. */
  function BinaryOf(bytes: seq<byte>): string {
    seq(|bytes|, i requires 0 <= i < |bytes| => bytes[i] as int as char)
  }

  /** `Uint8Array` element assignment keeps the low 8 bits of each code. */
  function BytesOf(binary: string): seq<byte> {
    seq(|binary|, i requires 0 <= i < |binary| => (binary[i] as int % 256) as byte)
  }

  lemma BinaryRoundTrip(bytes: seq<byte>)
    ensures |BinaryOf(bytes)| == |bytes|
    ensures IsBinary(BinaryOf(bytes))
    ensures BytesOf(BinaryOf(bytes)) == bytes
  {
    assert forall i :: 0 <= i < |bytes| ==> BytesOf(BinaryOf(bytes))[i] == bytes[i];
  }

  function ToBase64(p: Primitives, bytes: seq<byte>): string {
    p.btoa(BinaryOf(bytes))
  }

  function FromBase64(p: Primitives, b64: string): Option<seq<byte>> {
    match p.atob(b64)
    case None => None
    case Some(binary) => Some(BytesOf(binary))
  }

  /** Encoding bytes to base64 and decoding gives them back; only empty input encodes to "". */
  lemma Base64RoundTrip(p: Primitives, bytes: seq<byte>)
    requires Sound(p)
    ensures FromBase64(p, ToBase64(p, bytes)) == Some(bytes)
    ensures ToBase64(p, bytes) == "" <==> bytes == []
  {
    BinaryRoundTrip(bytes);
    BinaryRoundTrip([]);
    if ToBase64(p, bytes) == "" {
      assert p.atob(p.btoa(BinaryOf(bytes))) == Some(BinaryOf(bytes));
      assert p.atob(p.btoa("")) == Some("");
    }
    if bytes == [] {
      assert BinaryOf(bytes) == "";
    }
  }

  // ---------------------------------------------------------------------
  // Framing
  // ---------------------------------------------------------------------

  function Frame(iv: seq<byte>, ciphertext: seq<byte>): seq<byte> {
    iv + ciphertext
  }

  /** `combined.slice(0, 12)` and `combined.slice(12)`; slices clamp to the length. */
  function Unframe(combined: seq<byte>): (parts: (seq<byte>, seq<byte>))
    ensures parts.0 + parts.1 == combined
    ensures |parts.0| == if |combined| < IvLength then |combined| else IvLength
  {
    var n := if |combined| < IvLength then |combined| else IvLength;
    (combined[..n], combined[n..])
  }

  /** Splitting a framed blob returns the IV and the ciphertext it was built from. */
  lemma FrameSplit(iv: Iv, ciphertext: seq<byte>)
    ensures Unframe(Frame(iv, ciphertext)) == (iv, ciphertext)
  {
    assert Frame(iv, ciphertext)[..IvLength] == iv;
  }

  // ---------------------------------------------------------------------
  // The two storage entries
  // ---------------------------------------------------------------------

  type Items = map<string, string>

  /** `localStorage.getItem`: null when the key is absent. */
  function GetItem(items: Items, key: string): Option<string> {
    if key in items then Some(items[key]) else None
  }

  /** `!saltB64`: no salt entry, or an empty one. */
  predicate NoSalt(items: Items) {
    SaltKey !in items || items[SaltKey] == ""
  }

  function DeriveKey(p: Primitives, password: string, salt: seq<byte>): seq<byte> {
    p.pbkdf2(p.utf8Encode(password), salt, Pbkdf2Iterations)
  }

  /** A storage state after an operation, with the operation's outcome. */
  datatype Written<+T> = Written(items: Items, result: Result<T, VaultError>)

  /** The salt encryptData works with: a fresh one, stored, when none is
      present; otherwise the stored one, decoded, with storage untouched. */
  function SaltFor(p: Primitives, items: Items, freshSalt: Salt): (w: Written<seq<byte>>)
    ensures NoSalt(items) ==> w == Written(items[SaltKey := ToBase64(p, freshSalt)], Success(freshSalt))
    ensures !NoSalt(items) ==> w.items == items
    ensures !NoSalt(items) && w.result.Success? ==> FromBase64(p, items[SaltKey]) == Some(w.result.value)
    ensures w.result.Failure? ==> w.result.error == MalformedBase64
  {
    if NoSalt(items) then
      Written(items[SaltKey := ToBase64(p, freshSalt)], Success(freshSalt))
    else
      match FromBase64(p, items[SaltKey])
      case None => Written(items, Failure(MalformedBase64))
      case Some(salt) => Written(items, Success(salt))
  }

  function EncryptData(p: Primitives, items: Items, data: string, password: string,
                       freshSalt: Salt, iv: Iv): (w: Written<string>)
    ensures w.items == SaltFor(p, items, freshSalt).items
    ensures w.result.Failure? <==> SaltFor(p, items, freshSalt).result.Failure?
  {
    var s := SaltFor(p, items, freshSalt);
    match s.result
    case Failure(e) => Written(s.items, Failure(e))
    case Success(salt) =>
      var key := DeriveKey(p, password, salt);
      var ciphertext := p.aesGcmEncrypt(key, iv, p.utf8Encode(data));
      Written(s.items, Success(ToBase64(p, Frame(iv, ciphertext))))
  }

  function DecryptData(p: Primitives, items: Items, encryptedB64: string, password: string): (r: Result<string, VaultError>)
    ensures NoSalt(items) ==> r == Failure(NoVaultFound)
  {
    if NoSalt(items) then Failure(NoVaultFound)
    else
      match FromBase64(p, items[SaltKey])
      case None => Failure(MalformedBase64)
      case Some(salt) =>
        var key := DeriveKey(p, password, salt);
        match FromBase64(p, encryptedB64)
        case None => Failure(MalformedBase64)
        case Some(combined) =>
          var parts := Unframe(combined);
          match p.aesGcmDecrypt(key, parts.0, parts.1)
          case None => Failure(InvalidPassword)
          case Some(plain) => Success(p.utf8Decode(plain))
  }

  /** A failed authenticated decryption is always reported as "Invalid password",
      and a successful result is always the decoding of what the cipher returned. */
  lemma DecryptAuthentication(p: Primitives, items: Items, encryptedB64: string, password: string,
                              salt: seq<byte>, combined: seq<byte>)
    requires !NoSalt(items)
    requires FromBase64(p, items[SaltKey]) == Some(salt)
    requires FromBase64(p, encryptedB64) == Some(combined)
    ensures var key := DeriveKey(p, password, salt);
            var parts := Unframe(combined);
            match p.aesGcmDecrypt(key, parts.0, parts.1)
            case None => DecryptData(p, items, encryptedB64, password) == Failure(InvalidPassword)
            case Some(plain) => DecryptData(p, items, encryptedB64, password) == Success(p.utf8Decode(plain))
  {
  }

  function SaveVault(p: Primitives, items: Items, secrets: seq<Secret>, password: string,
                     freshSalt: Salt, iv: Iv): (w: Written<()>)
    ensures w.result.Failure? ==> w.items == items
    ensures w.result.Success? ==> VaultKey in w.items
  {
    var e := EncryptData(p, items, p.stringify(secrets), password, freshSalt, iv);
    match e.result
    case Failure(err) => Written(e.items, Failure(err))
    case Success(blob) => Written(e.items[VaultKey := blob], Success(()))
  }

  function LoadVault(p: Primitives, items: Items, password: string): (r: Result<seq<Secret>, VaultError>)
    ensures GetItem(items, VaultKey) == None ==> r == Success([])
  {
    var blob := GetItem(items, VaultKey);
    if blob == None || blob == Some("") then Success([])
    else
      match DecryptData(p, items, blob.value, password)
      case Failure(e) => Failure(e)
      case Success(data) =>
        match p.parse(data)
        case None => Failure(MalformedJson)
        case Some(secrets) => Success(secrets)
  }

  function VaultExists(items: Items): bool {
    GetItem(items, VaultKey) != None
  }

  function DeleteVault(items: Items): Items {
    items - {VaultKey, SaltKey}
  }

  // ---------------------------------------------------------------------
  // Properties
  // ---------------------------------------------------------------------

  /** Once a salt has been stored, later encryptions reuse it and never rewrite it. */
  lemma SaltStable(p: Primitives, items: Items, data1: string, pw1: string, salt1: Salt, iv1: Iv,
                   data2: string, pw2: string, salt2: Salt, iv2: Iv)
    requires Sound(p)
    requires EncryptData(p, items, data1, pw1, salt1, iv1).result.Success?
    ensures var w1 := EncryptData(p, items, data1, pw1, salt1, iv1);
            var w2 := EncryptData(p, w1.items, data2, pw2, salt2, iv2);
            && w2.items == w1.items
            && SaltFor(p, w1.items, salt2).result == SaltFor(p, items, salt1).result
  {
    var w1 := EncryptData(p, items, data1, pw1, salt1, iv1);
    if NoSalt(items) {
      Base64RoundTrip(p, salt1);
      assert w1.items[SaltKey] == ToBase64(p, salt1);
    }
  }

  /** Saving a list and loading it back with the same password gives the list. */
  lemma SaveLoadRoundTrip(p: Primitives, items: Items, secrets: seq<Secret>, password: string,
                          freshSalt: Salt, iv: Iv)
    requires Sound(p)
    requires SaveVault(p, items, secrets, password, freshSalt, iv).result.Success?
    ensures LoadVault(p, SaveVault(p, items, secrets, password, freshSalt, iv).items, password) == Success(secrets)
  {
    var w := SaveVault(p, items, secrets, password, freshSalt, iv);
    var s := SaltFor(p, items, freshSalt);
    var salt := s.result.value;
    if NoSalt(items) {
      Base64RoundTrip(p, freshSalt);
    }
    assert !NoSalt(w.items) && FromBase64(p, w.items[SaltKey]) == Some(salt);
    var key := DeriveKey(p, password, salt);
    var ciphertext := p.aesGcmEncrypt(key, iv, p.utf8Encode(p.stringify(secrets)));
    var blob := ToBase64(p, Frame(iv, ciphertext));
    assert w.items[VaultKey] == blob;
    Base64RoundTrip(p, Frame(iv, ciphertext));
    assert blob != "";
    FrameSplit(iv, ciphertext);
    DecryptAuthentication(p, w.items, blob, password, salt, Frame(iv, ciphertext));
    assert DecryptData(p, w.items, blob, password) == Success(p.stringify(secrets));
  }

  /** After one successful save every later save succeeds too: the salt it stored decodes. */
  lemma SaveKeepsWorking(p: Primitives, items: Items, secrets1: seq<Secret>, pw1: string, salt1: Salt, iv1: Iv,
                         secrets2: seq<Secret>, pw2: string, salt2: Salt, iv2: Iv)
    requires Sound(p)
    requires SaveVault(p, items, secrets1, pw1, salt1, iv1).result.Success?
    ensures var w1 := SaveVault(p, items, secrets1, pw1, salt1, iv1);
            SaveVault(p, w1.items, secrets2, pw2, salt2, iv2).result.Success?
  {
    var w1 := SaveVault(p, items, secrets1, pw1, salt1, iv1);
    var e1 := EncryptData(p, items, p.stringify(secrets1), pw1, salt1, iv1);
    SaltStable(p, items, p.stringify(secrets1), pw1, salt1, iv1, p.stringify(secrets2), pw2, salt2, iv2);
    assert w1.items == e1.items[VaultKey := e1.result.value];
    assert !NoSalt(e1.items) ==> SaltKey in w1.items && w1.items[SaltKey] == e1.items[SaltKey];
    assert SaltFor(p, w1.items, salt2).result == SaltFor(p, e1.items, salt2).result;
  }

  /** A vault saved under one password does not open under a password whose key differs. */
  lemma WrongPasswordRejected(p: Primitives, items: Items, secrets: seq<Secret>, password: string,
                              other: string, freshSalt: Salt, iv: Iv)
    requires Sound(p) && RejectsOtherKeys(p)
    requires SaveVault(p, items, secrets, password, freshSalt, iv).result.Success?
    requires var salt := SaltFor(p, items, freshSalt).result.value;
             DeriveKey(p, other, salt) != DeriveKey(p, password, salt)
    ensures LoadVault(p, SaveVault(p, items, secrets, password, freshSalt, iv).items, other) == Failure(InvalidPassword)
  {
    var w := SaveVault(p, items, secrets, password, freshSalt, iv);
    var salt := SaltFor(p, items, freshSalt).result.value;
    if NoSalt(items) {
      Base64RoundTrip(p, freshSalt);
    }
    var key := DeriveKey(p, password, salt);
    var ciphertext := p.aesGcmEncrypt(key, iv, p.utf8Encode(p.stringify(secrets)));
    var blob := ToBase64(p, Frame(iv, ciphertext));
    assert w.items[VaultKey] == blob;
    Base64RoundTrip(p, Frame(iv, ciphertext));
    FrameSplit(iv, ciphertext);
    DecryptAuthentication(p, w.items, blob, other, salt, Frame(iv, ciphertext));
  }

  /** Whether a vault exists depends on the blob entry alone, and without one loading yields []. */
  lemma VaultExistsIsBlobPresence(p: Primitives, items: Items, saltEntry: string, password: string)
    ensures VaultExists(items) <==> VaultKey in items
    ensures VaultExists(items[SaltKey := saltEntry]) == VaultExists(items)
    ensures VaultExists(items - {SaltKey}) == VaultExists(items)
    ensures !VaultExists(items) ==> LoadVault(p, items, password) == Success([])
  {
  }

  /** After deleteVault no vault exists and the next encryption stores a new salt. */
  lemma DeleteVaultResets(p: Primitives, items: Items, data: string, password: string, freshSalt: Salt, iv: Iv)
    ensures !VaultExists(DeleteVault(items))
    ensures NoSalt(DeleteVault(items))
    ensures var w := EncryptData(p, DeleteVault(items), data, password, freshSalt, iv);
            && w.result.Success?
            && GetItem(w.items, SaltKey) == Some(ToBase64(p, freshSalt))
  {
  }

  // ---------------------------------------------------------------------
  // The imperative service over localStorage
  // ---------------------------------------------------------------------

  /** `bytes.forEach((b) => (binary += String.fromCharCode(b)))`. */
  method BytesToBinary(bytes: seq<byte>) returns (binary: string)
    ensures binary == BinaryOf(bytes)
  {
    binary := "";
    for i := 0 to |bytes|
      invariant |binary| == i
      invariant forall k :: 0 <= k < i ==> binary[k] == bytes[k] as int as char
    {
      binary := binary + [bytes[i] as int as char];
    }
  }

  /** `new Uint8Array(binary.length)` filled by `bytes[i] = binary.charCodeAt(i)`. */
  method BinaryToBuffer(binary: string) returns (bytes: array<byte>)
    ensures fresh(bytes)
    ensures bytes[..] == BytesOf(binary)
  {
    bytes := new byte[|binary|];
    for i := 0 to |binary|
      invariant forall k :: 0 <= k < i ==> bytes[k] == (binary[k] as int % 256) as byte
    {
      bytes[i] := (binary[i] as int % 256) as byte;
    }
  }

  method ArrayBufferToBase64(p: Primitives, bytes: seq<byte>) returns (b64: string)
    ensures b64 == ToBase64(p, bytes)
  {
    var binary := BytesToBinary(bytes);
    b64 := p.btoa(binary);
  }

  method Base64ToArrayBuffer(p: Primitives, b64: string) returns (r: Option<seq<byte>>)
    ensures r == FromBase64(p, b64)
  {
    var binary := p.atob(b64);
    if binary.None? {
      return None;
    }
    var bytes := BinaryToBuffer(binary.value);
    r := Some(bytes[..]);
  }

  /** localStorage holding the two vault entries, with the vault service's operations. */
  class VaultStorage {
    var items: Items
    const prims: Primitives

    constructor (prims: Primitives, items: Items)
      ensures this.prims == prims && this.items == items
    {
      this.prims := prims;
      this.items := items;
    }

    method SetItem(key: string, value: string)
      modifies this
      ensures items == old(items)[key := value]
    {
      items := items[key := value];
    }

    method RemoveItem(key: string)
      modifies this
      ensures items == old(items) - {key}
    {
      items := items - {key};
    }

    method Encrypt(data: string, password: string, freshSalt: Salt, iv: Iv) returns (r: Result<string, VaultError>)
      modifies this
      ensures Written(items, r) == EncryptData(prims, old(items), data, password, freshSalt, iv)
    {
      var saltB64 := GetItem(items, SaltKey);
      var salt: seq<byte>;
      if saltB64 == None || saltB64 == Some("") {
        salt := freshSalt;
        var encoded := ArrayBufferToBase64(prims, salt);
        SetItem(SaltKey, encoded);
      } else {
        var decoded := Base64ToArrayBuffer(prims, saltB64.value);
        if decoded.None? {
          return Failure(MalformedBase64);
        }
        salt := decoded.value;
      }
      var key := DeriveKey(prims, password, salt);
      var encrypted := prims.aesGcmEncrypt(key, iv, prims.utf8Encode(data));
      var combined := new byte[|iv| + |encrypted|];
      forall i | 0 <= i < |iv| {
        combined[i] := iv[i];
      }
      forall i | 0 <= i < |encrypted| {
        combined[|iv| + i] := encrypted[i];
      }
      assert combined[..] == Frame(iv, encrypted);
      var b64 := ArrayBufferToBase64(prims, combined[..]);
      r := Success(b64);
    }

    method Decrypt(encryptedB64: string, password: string) returns (r: Result<string, VaultError>)
      ensures r == DecryptData(prims, items, encryptedB64, password)
    {
      var saltB64 := GetItem(items, SaltKey);
      if saltB64 == None || saltB64 == Some("") {
        return Failure(NoVaultFound);
      }
      var salt := Base64ToArrayBuffer(prims, saltB64.value);
      if salt.None? {
        return Failure(MalformedBase64);
      }
      var key := DeriveKey(prims, password, salt.value);
      var combined := Base64ToArrayBuffer(prims, encryptedB64);
      if combined.None? {
        return Failure(MalformedBase64);
      }
      var n := if |combined.value| < IvLength then |combined.value| else IvLength;
      var iv := combined.value[..n];
      var ciphertext := combined.value[n..];
      var decrypted := prims.aesGcmDecrypt(key, iv, ciphertext);
      if decrypted.None? {
        return Failure(InvalidPassword);
      }
      r := Success(prims.utf8Decode(decrypted.value));
    }

    method Save(secrets: seq<Secret>, password: string, freshSalt: Salt, iv: Iv) returns (r: Result<(), VaultError>)
      modifies this
      ensures Written(items, r) == SaveVault(prims, old(items), secrets, password, freshSalt, iv)
    {
      var data := prims.stringify(secrets);
      var encrypted := Encrypt(data, password, freshSalt, iv);
      if encrypted.Failure? {
        return Failure(encrypted.error);
      }
      SetItem(VaultKey, encrypted.value);
      r := Success(());
    }

    method Load(password: string) returns (r: Result<seq<Secret>, VaultError>)
      ensures r == LoadVault(prims, items, password)
    {
      var encrypted := GetItem(items, VaultKey);
      if encrypted == None || encrypted == Some("") {
        return Success([]);
      }
      var data := Decrypt(encrypted.value, password);
      if data.Failure? {
        return Failure(data.error);
      }
      var secrets := prims.parse(data.value);
      if secrets.None? {
        return Failure(MalformedJson);
      }
      r := Success(secrets.value);
    }

    method Exists() returns (b: bool)
      ensures b == VaultExists(items)
    {
      b := GetItem(items, VaultKey) != None;
    }

    method Delete()
      modifies this
      ensures items == DeleteVault(old(items))
    {
      RemoveItem(VaultKey);
      RemoveItem(SaltKey);
    }
  }
}
