/**
  Provisioning of the secret that signs GUI execution tickets: the environment override, or else the
  keychain, where it is generated on first need. Every keychain call can fail on every launch.
 */
module TicketSecret {
  import opened Basics
  import Fingerprint

  /** What the keychain does on one launch. A write that reports an error may still have happened. */
  datatype Keychain = Unavailable | Available(readFails: bool, writeFails: bool, writeLands: bool)

  /** bytes are the random bytes drawn if a secret has to be generated. */
  datatype Launch = Launch(override: Option<string>, keychain: Keychain, bytes: Fingerprint.Digest)

  predicate Overridden(l: Launch) {
    l.override.Some? && !IsBlank(l.override.value)
  }

  /** A stored value that counts as a secret. */
  predicate Usable(stored: Option<string>) {
    stored.Some? && !IsBlank(stored.value)
  }

  /** The secret of a launch and what the keychain holds after it. */
  function Resolve(stored: Option<string>, l: Launch): (Option<string>, Option<string>) {
    if Overridden(l) then (l.override, stored)
    else if l.keychain.Unavailable? || l.keychain.readFails then (None, stored)
    else if Usable(stored) then (stored, stored)
    else
      var secret := Fingerprint.Hex(l.bytes);
      if !l.keychain.writeFails then (Some(secret), Some(secret))
      else (None, if l.keychain.writeLands then Some(secret) else stored)
  }

  /** Two lower-case digits for every byte. */
  method GenerateSecret(bytes: Fingerprint.Digest) returns (hex: string)
    ensures hex == Fingerprint.Hex(bytes) && IsLowerHex(hex, 64) && !IsBlank(hex)
  {
    hex := "";
    for i := 0 to |bytes|
      invariant hex == Fingerprint.Hex(bytes[..i])
    {
      HexGrows(bytes[..i], bytes[i]);
      assert bytes[..i + 1] == bytes[..i] + [bytes[i]];
      hex := hex + [Fingerprint.HexDigit(bytes[i] / 16), Fingerprint.HexDigit(bytes[i] % 16)];
    }
    assert bytes[..|bytes|] == bytes;
    GeneratedIsNotBlank(bytes);
  }

  lemma {:induction false} HexGrows(b: seq<Fingerprint.Byte>, x: Fingerprint.Byte)
    ensures Fingerprint.Hex(b + [x]) == Fingerprint.Hex(b) + [Fingerprint.HexDigit(x / 16), Fingerprint.HexDigit(x % 16)]
  {
    if b == [] {
      assert b + [x] == [x];
      assert [x][1..] == [];
    } else {
      HexGrows(b[1..], x);
      assert (b + [x])[1..] == b[1..] + [x];
    }
  }

  lemma {:induction false} GeneratedIsNotBlank(bytes: Fingerprint.Digest)
    ensures !IsBlank(Fingerprint.Hex(bytes))
  {
    var hex := Fingerprint.Hex(bytes);
    assert IsHexDigit(hex[0]);
    assert !IsWhiteSpace(hex[0]);
  }

  class SecretStore {
    var stored: Option<string>

    constructor (stored: Option<string>)
      ensures this.stored == stored
    {
      this.stored := stored;
    }

    method ResolveSecret(l: Launch) returns (secret: Option<string>)
      modifies this
      ensures (secret, stored) == Resolve(old(stored), l)
    {
      if l.override.Some? && !IsBlank(l.override.value) {
        return l.override;
      }
      if l.keychain.Unavailable? {
        return None;
      }
      secret := ProvisionFromStore(l);
    }

    method ProvisionFromStore(l: Launch) returns (secret: Option<string>)
      requires l.keychain.Available?
      modifies this
      ensures !Overridden(l) ==> (secret, stored) == Resolve(old(stored), l)
    {
      if l.keychain.readFails {
        return None;
      }
      if stored.Some? && !IsBlank(stored.value) {
        return stored;
      }
      secret := GenerateAndPersist(l);
    }

    method GenerateAndPersist(l: Launch) returns (secret: Option<string>)
      requires l.keychain.Available?
      modifies this
      ensures !l.keychain.writeFails ==> secret == stored == Some(Fingerprint.Hex(l.bytes))
      ensures l.keychain.writeFails ==>
        secret == None && stored == if l.keychain.writeLands then Some(Fingerprint.Hex(l.bytes)) else old(stored)
    {
      var generated := GenerateSecret(l.bytes);
      if !l.keychain.writeFails || l.keychain.writeLands {
        stored := Some(generated);
      }
      secret := if l.keychain.writeFails then None else Some(generated);
    }
  }

  // ----- many launches ----------------------------------------------------------------------------

  /** What the keychain holds after the first n launches. */
  function StoredAfter(initial: Option<string>, launches: seq<Launch>, n: nat): Option<string>
    requires n <= |launches|
  {
    if n == 0 then initial else Resolve(StoredAfter(initial, launches, n - 1), launches[n - 1]).1
  }

  /** The secret that launch i gets. */
  function SecretOf(initial: Option<string>, launches: seq<Launch>, i: nat): Option<string>
    requires i < |launches|
  {
    Resolve(StoredAfter(initial, launches, i), launches[i]).0
  }

  /** A secret in the keychain is never overwritten. */
  lemma {:induction false} StoredSecretStays(initial: Option<string>, launches: seq<Launch>, i: nat, n: nat)
    requires i <= n <= |launches| && Usable(StoredAfter(initial, launches, i))
    ensures StoredAfter(initial, launches, n) == StoredAfter(initial, launches, i)
    decreases n
  {
    if i < n {
      StoredSecretStays(initial, launches, i, n - 1);
    }
  }

  /** A launch without override returns what the keychain holds from then on, or nothing. */
  lemma {:induction false} ReturnedIsStored(initial: Option<string>, launches: seq<Launch>, i: nat)
    requires i < |launches| && !Overridden(launches[i]) && SecretOf(initial, launches, i).Some?
    ensures SecretOf(initial, launches, i) == StoredAfter(initial, launches, i + 1) && Usable(StoredAfter(initial, launches, i + 1))
  {
    GeneratedIsNotBlank(launches[i].bytes);
  }

  /** All launches without override that get a secret get the same one, whatever fails in between. */
  lemma {:induction false} SecretIsStable(initial: Option<string>, launches: seq<Launch>, i: nat, j: nat)
    requires i < |launches| && !Overridden(launches[i]) && SecretOf(initial, launches, i).Some?
    requires j < |launches| && !Overridden(launches[j]) && SecretOf(initial, launches, j).Some?
    ensures SecretOf(initial, launches, i) == SecretOf(initial, launches, j)
  {
    ReturnedIsStored(initial, launches, i);
    ReturnedIsStored(initial, launches, j);
    if i < j {
      StoredSecretStays(initial, launches, i + 1, j + 1);
    } else {
      StoredSecretStays(initial, launches, j + 1, i + 1);
    }
  }
}
