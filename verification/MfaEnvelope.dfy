/**
 MFA secret envelopes and the bulk change of the key that wraps them. A secret is
 sealed under a data key (DEK), the DEK under a key-encryption key (KEK) named in
 the envelope; rewrapping replaces only the outer layer. AES-GCM is symbolic: a
 sealed text opens under exactly the key, nonce and associated data it was sealed
 with, and base64 text never reads as a key identifier.
 */
module MfaEnvelope {
  import opened Sums

  datatype Aad = SecretPart(user: nat) | DekPart(user: nat, kekId: string)

  datatype Bytes = Utf8(text: string) | Random(n: nat) | Sealed(key: Bytes, nonce: Bytes, aad: Aad, plain: Bytes)

  datatype Value = Number(n: int) | Text(text: string) | Base64(bytes: Bytes)

  /** The two columns of a user row: a marker in the nonce, JSON in the ciphertext. */
  datatype Nonce = Marker | OtherNonce
  datatype Ciphertext = Empty | NotJson | NotObject | Object(fields: map<string, Value>)
  datatype Stored = Stored(nonce: Nonce, ciphertext: Ciphertext)

  datatype Error = NotEnveloped | Malformed | KekMismatch | UnknownKek | InvalidTag | NotText
  datatype Result<T> = Ok(value: T) | Err(error: Error)

  /** Configuration admits key identifiers of 1 to 32 characters only. */
  type Keyring = keys: map<string, Bytes> | "" !in keys witness map[]

  const REQUIRED := {"v", "alg", "kek_id", "dek_wrapped", "dek_nonce", "secret_ciphertext", "secret_nonce"}

  function Open(key: Bytes, nonce: Bytes, aad: Aad, sealedText: Bytes): Result<Bytes> {
    if sealedText.Sealed? && sealedText.key == key && sealedText.nonce == nonce && sealedText.aad == aad
    then Ok(sealedText.plain) else Err(InvalidTag)
  }

  predicate IsEnveloped(s: Stored) {
    s.nonce.Marker? && !s.ciphertext.Empty?
  }

  predicate WellFormed(fields: map<string, Value>) {
    && fields.Keys == REQUIRED
    && fields["v"] == Number(1) && fields["alg"] == Text("AES-256-GCM")
    && fields["kek_id"].Text? && fields["kek_id"].text != ""
  }

  predicate Loads(s: Stored) {
    IsEnveloped(s) && s.ciphertext.Object? && WellFormed(s.ciphertext.fields)
  }

  function KekId(s: Stored): string
    requires Loads(s)
  {
    s.ciphertext.fields["kek_id"].text
  }

  function UnwrapDek(ring: Keyring, fields: map<string, Value>, user: nat): Result<Bytes>
    requires WellFormed(fields)
  {
    var kekId := fields["kek_id"].text;
    if kekId !in ring then Err(UnknownKek)
    else if !fields["dek_nonce"].Base64? || !fields["dek_wrapped"].Base64? then Err(Malformed)
    else Open(ring[kekId], fields["dek_nonce"].bytes, DekPart(user, kekId), fields["dek_wrapped"].bytes)
  }

  function OpenSecret(dek: Bytes, fields: map<string, Value>, user: nat): Result<string>
    requires WellFormed(fields)
  {
    if !fields["secret_nonce"].Base64? || !fields["secret_ciphertext"].Base64? then Err(Malformed)
    else
      var plain := Open(dek, fields["secret_nonce"].bytes, SecretPart(user), fields["secret_ciphertext"].bytes);
      if plain.Err? then Err(plain.error)
      else if plain.value.Utf8? then Ok(plain.value.text) else Err(NotText)
  }

  function Decrypt(ring: Keyring, s: Stored, user: nat): Result<string> {
    if !IsEnveloped(s) then Err(NotEnveloped)
    else if !Loads(s) then Err(Malformed)
    else
      var dek := UnwrapDek(ring, s.ciphertext.fields, user);
      if dek.Err? then Err(dek.error) else OpenSecret(dek.value, s.ciphertext.fields, user)
  }

  function Encrypt(ring: Keyring, secret: string, user: nat, kekId: string, dek: Bytes, dekNonce: Bytes,
                   secretNonce: Bytes)
    : Result<Stored>
  {
    if kekId !in ring then Err(UnknownKek)
    else
      Ok(Stored(Marker, Object(map[
        "v" := Number(1),
        "alg" := Text("AES-256-GCM"),
        "kek_id" := Text(kekId),
        "dek_wrapped" := Base64(Sealed(ring[kekId], dekNonce, DekPart(user, kekId), dek)),
        "dek_nonce" := Base64(dekNonce),
        "secret_ciphertext" := Base64(Sealed(dek, secretNonce, SecretPart(user), Utf8(secret))),
        "secret_nonce" := Base64(secretNonce)])))
  }

  /** The envelope dictionary is loaded, three of its entries are replaced, and it is dumped again. */
  method RewrapMfaDek(ring: Keyring, s: Stored, user: nat, target: string, source: Option<string>, nonce: Bytes)
    returns (r: Result<Stored>)
    ensures r == Rewrap(ring, s, user, target, source, nonce)
    ensures r.Err? <==> RewrapRefused(ring, s, user, target, source)
    ensures r.Ok? && KekId(s) != target ==>
              forall k :: k in REQUIRED - {"kek_id", "dek_nonce", "dek_wrapped"} ==>
                r.value.ciphertext.fields[k] == s.ciphertext.fields[k]
  {
    if !IsEnveloped(s) {
      return Err(NotEnveloped);
    }
    if !Loads(s) {
      return Err(Malformed);
    }
    var envelope := s.ciphertext.fields;
    var current := envelope["kek_id"].text;
    if source.Some? && current != source.value {
      return Err(KekMismatch);
    }
    if current == target {
      return Ok(s);
    }
    var dek := UnwrapDek(ring, envelope, user);
    if dek.Err? {
      return Err(dek.error);
    }
    if target !in ring {
      return Err(UnknownKek);
    }
    envelope := envelope["kek_id" := Text(target)];
    envelope := envelope["dek_nonce" := Base64(nonce)];
    envelope := envelope["dek_wrapped" := Base64(Sealed(ring[target], nonce, DekPart(user, target), dek.value))];
    assert envelope == s.ciphertext.fields +
        map["dek_wrapped" := Base64(Sealed(ring[target], nonce, DekPart(user, target), dek.value)),
            "dek_nonce" := Base64(nonce), "kek_id" := Text(target)];
    return Ok(Stored(Marker, Object(envelope)));
  }

  predicate RewrapRefused(ring: Keyring, s: Stored, user: nat, target: string, source: Option<string>) {
    || !Loads(s)
    || (source.Some? && KekId(s) != source.value)
    || (KekId(s) != target && (target !in ring || UnwrapDek(ring, s.ciphertext.fields, user).Err?))
  }

  function Rewrap(ring: Keyring, s: Stored, user: nat, target: string, source: Option<string>,
                  nonce: Bytes): Result<Stored> {
    if !IsEnveloped(s) then Err(NotEnveloped)
    else if !Loads(s) then Err(Malformed)
    else if source.Some? && KekId(s) != source.value then Err(KekMismatch)
    else if KekId(s) == target then Ok(s)
    else
      var dek := UnwrapDek(ring, s.ciphertext.fields, user);
      if dek.Err? then Err(dek.error)
      else if target !in ring then Err(UnknownKek)
      else
        Ok(Stored(Marker, Object(s.ciphertext.fields +
          map["dek_wrapped" := Base64(Sealed(ring[target], nonce, DekPart(user, target), dek.value)),
              "dek_nonce" := Base64(nonce), "kek_id" := Text(target)])))
  }

  /** What is stored decrypts to the secret for its user, and for nobody else. */
  lemma EncryptedForOneUser(
    ring: Keyring, secret: string, user: nat, kekId: string, dek: Bytes, dekNonce: Bytes, secretNonce: Bytes,
      reader: nat)
    requires kekId in ring
    ensures var s := Encrypt(ring, secret, user, kekId, dek, dekNonce, secretNonce).value;
            Decrypt(ring, s, reader) == if reader == user then Ok(secret) else Err(InvalidTag)
  {
    var s := Encrypt(ring, secret, user, kekId, dek, dekNonce, secretNonce).value;
    assert s.ciphertext.fields.Keys == REQUIRED;
    assert KekId(s) == kekId;
  }

  /**
   A successful rewrap changes no user's view of the envelope, readable or not,
   and leaves it wrapped under the target.
   */
  lemma RewrapKeepsMeaning(ring: Keyring, s: Stored, user: nat, target: string, source: Option<string>, nonce: Bytes,
                          reader: nat)
    requires Rewrap(ring, s, user, target, source, nonce).Ok?
    ensures var t := Rewrap(ring, s, user, target, source, nonce).value;
            && Loads(t) && KekId(t) == target
            && Decrypt(ring, t, reader) == Decrypt(ring, s, reader)
            && t.ciphertext.fields["secret_ciphertext"] == s.ciphertext.fields["secret_ciphertext"]
            && t.ciphertext.fields["secret_nonce"] == s.ciphertext.fields["secret_nonce"]
  {
    var t := Rewrap(ring, s, user, target, source, nonce).value;
    if KekId(s) != target {
      assert t.ciphertext.fields.Keys == REQUIRED;
    }
  }

  /** Decryption looks at one key of the ring only. */
  lemma OtherKeysDoNotMatter(ring: Keyring, other: Keyring, s: Stored, user: nat)
    requires Loads(s) ==>
             (KekId(s) in ring <==> KekId(s) in other) && (KekId(s) in ring ==> ring[KekId(s)] == other[KekId(s)])
    ensures Decrypt(ring, s, user) == Decrypt(other, s, user)
  {
  }

  // ----- any chain of rewraps, with the keyring changing between them

  datatype Hop = Hop(ring: Keyring, target: string, source: Option<string>, nonce: Bytes)

  /** The result of the rewraps in order, or None if one of them is refused. */
  function Chain(s: Stored, user: nat, hops: seq<Hop>): Option<Stored> {
    if hops == [] then Some(s)
    else
      var before := Chain(s, user, hops[..|hops| - 1]);
      var hop := hops[|hops| - 1];
      if before.None? then None
      else
        var r := Rewrap(hop.ring, before.value, user, hop.target, hop.source, hop.nonce);
        if r.Ok? then Some(r.value) else None
  }

  /** No identifier is ever given to a second key. */
  predicate IdentifiersStable(rings: seq<Keyring>) {
    forall i, j, id :: 0 <= i < |rings| && 0 <= j < |rings| && id in rings[i] && id in rings[j] ==>
      rings[i][id] == rings[j][id]
  }

  function Rings(hops: seq<Hop>): seq<Keyring> {
    seq(|hops|, i requires 0 <= i < |hops| => hops[i].ring)
  }

  /**
   After any chain of rewraps, across keyrings that gain and lose keys, the
   envelope means to every reader what it meant at the start, for each keyring
   that holds the key it is now wrapped under.
   */
  lemma {:induction false} ChainKeepsMeaning(s: Stored, user: nat, hops: seq<Hop>, first: Keyring, last: Keyring,
                          reader: nat)
    requires IdentifiersStable([first, last] + Rings(hops)) && Chain(s, user, hops).Some?
    requires Loads(s) && KekId(s) in first && KekId(Chained(s, user, hops)) in last
    ensures Decrypt(last, Chained(s, user, hops), reader) == Decrypt(first, s, reader)
    ensures SameSecretPart(s, Chained(s, user, hops))
  {
    var rings := [first, last] + Rings(hops);
    assert rings[0] == first && rings[1] == last;
    if hops == [] {
      OtherKeysDoNotMatter(first, last, s, reader);
    } else {
      var most, hop := hops[..|hops| - 1], hops[|hops| - 1];
      var mid, end := Chained(s, user, most), Chained(s, user, hops);
      assert Rings(hops)[|hops| - 1] == hop.ring && rings[|hops| + 1] == hop.ring;
      RewrapKeepsMeaning(hop.ring, mid, user, hop.target, hop.source, hop.nonce, reader);
      if KekId(mid) == hop.target {
        assert end == mid;
        PrefixStable(first, last, hops);
        ChainKeepsMeaning(s, user, most, first, last, reader);
      } else {
        assert KekId(mid) in hop.ring;
        StableUpTo(first, last, hops);
        ChainKeepsMeaning(s, user, most, first, hop.ring, reader);
        OtherKeysDoNotMatter(hop.ring, last, end, reader);
      }
    }
  }

  function Chained(s: Stored, user: nat, hops: seq<Hop>): (t: Stored)
    requires Chain(s, user, hops).Some? && Loads(s)
    ensures Loads(t)
  {
    ChainLoads(s, user, hops);
    Chain(s, user, hops).value
  }

  lemma {:induction false} ChainLoads(s: Stored, user: nat, hops: seq<Hop>)
    requires Chain(s, user, hops).Some? && Loads(s)
    ensures Loads(Chain(s, user, hops).value)
  {
    if hops != [] {
      var hop := hops[|hops| - 1];
      ChainLoads(s, user, hops[..|hops| - 1]);
      RewrapKeepsMeaning(hop.ring, Chain(s, user, hops[..|hops| - 1]).value, user, hop.target, hop.source, hop.nonce,
        user);
    }
  }

  predicate SameSecretPart(s: Stored, t: Stored)
    requires Loads(s) && Loads(t)
  {
    && t.ciphertext.fields["secret_ciphertext"] == s.ciphertext.fields["secret_ciphertext"]
    && t.ciphertext.fields["secret_nonce"] == s.ciphertext.fields["secret_nonce"]
  }

  lemma SublistStable(rings: seq<Keyring>, some: seq<Keyring>)
    requires IdentifiersStable(rings) && forall r :: r in some ==> r in rings
    ensures IdentifiersStable(some)
  {
    forall i, j, id | 0 <= i < |some| && 0 <= j < |some| && id in some[i] && id in some[j]
      ensures some[i][id] == some[j][id]
    {
      assert some[i] in rings && some[j] in rings;
    }
  }

  lemma PrefixStable(first: Keyring, last: Keyring, hops: seq<Hop>)
    requires hops != [] && IdentifiersStable([first, last] + Rings(hops))
    ensures IdentifiersStable([first, last] + Rings(hops[..|hops| - 1]))
  {
    RingsOfPrefix(hops);
    SublistStable([first, last] + Rings(hops), [first, last] + Rings(hops[..|hops| - 1]));
  }

  lemma StableUpTo(first: Keyring, last: Keyring, hops: seq<Hop>)
    requires hops != [] && IdentifiersStable([first, last] + Rings(hops))
    ensures IdentifiersStable([first, hops[|hops| - 1].ring] + Rings(hops[..|hops| - 1]))
  {
    RingsOfPrefix(hops);
    SublistStable([first, last] + Rings(hops), [first, hops[|hops| - 1].ring] + Rings(hops[..|hops| - 1]));
  }

  lemma RingsOfPrefix(hops: seq<Hop>)
    requires hops != []
    ensures Rings(hops) == Rings(hops[..|hops| - 1]) + [hops[|hops| - 1].ring]
  {
  }

  // ----- when an envelope opens

  /** The stored columns are an envelope of version 1: the marker, and exactly the seven entries. */
  predicate IsVersion1(s: Stored) {
    && s.nonce == Marker && s.ciphertext.Object?
    && var f := s.ciphertext.fields;
    && f.Keys == {"v", "alg", "kek_id", "dek_wrapped", "dek_nonce", "secret_ciphertext", "secret_nonce"}
    && f["v"] == Number(1) && f["alg"] == Text("AES-256-GCM") && f["kek_id"].Text? && f["kek_id"].text != ""
  }

  /** The DEK inside, for this user, under the key that the envelope names. */
  predicate Wraps(ring: Keyring, f: map<string, Value>, user: nat, dek: Bytes)
    requires "kek_id" in f && "dek_wrapped" in f && "dek_nonce" in f && f["kek_id"].Text?
  {
    && f["kek_id"].text in ring && f["dek_nonce"].Base64?
    && f["dek_wrapped"] ==
       Base64(Sealed(ring[f["kek_id"].text], f["dek_nonce"].bytes, DekPart(user, f["kek_id"].text), dek))
  }

  /** An envelope decrypts exactly when both layers are sealed for this user, the outer one under its own KEK id. */
  lemma DecryptAnswers(ring: Keyring, s: Stored, user: nat, secret: string)
    ensures Decrypt(ring, s, user) == Ok(secret) <==>
            && IsVersion1(s)
            && var f := s.ciphertext.fields;
               exists dek :: && Wraps(ring, f, user, dek) && f["secret_nonce"].Base64?
                             && f["secret_ciphertext"] ==
                                Base64(Sealed(dek, f["secret_nonce"].bytes, SecretPart(user), Utf8(secret)))
    ensures Decrypt(ring, s, user) == Err(NotEnveloped) <==> s.nonce != Marker || s.ciphertext == Empty
  {
    assert Loads(s) <==> IsVersion1(s);
    if Loads(s) {
      var f := s.ciphertext.fields;
      var dek := UnwrapDek(ring, f, user);
      if dek.Ok? {
        assert Wraps(ring, f, user, dek.value);
      }
    }
  }

  /** A rewrap succeeds exactly on a version 1 envelope, under the source if one is named, whose DEK opens. */
  lemma RewrapAnswers(ring: Keyring, s: Stored, user: nat, target: string, source: Option<string>, nonce: Bytes)
    ensures Rewrap(ring, s, user, target, source, nonce).Ok? <==>
            && IsVersion1(s)
            && var f := s.ciphertext.fields;
               && (source.Some? ==> f["kek_id"].text == source.value)
               && (f["kek_id"].text == target || (target in ring && exists dek :: Wraps(ring, f, user, dek)))
  {
    assert Loads(s) <==> IsVersion1(s);
    if Loads(s) {
      var dek := UnwrapDek(ring, s.ciphertext.fields, user);
      if dek.Ok? {
        assert Wraps(ring, s.ciphertext.fields, user, dek.value);
      }
    }
  }

  /** What a rewrap to another KEK writes. */
  lemma RewrapEffect(ring: Keyring, s: Stored, user: nat, target: string, source: Option<string>, nonce: Bytes,
                     dek: Bytes)
    requires IsVersion1(s) && s.ciphertext.fields["kek_id"].text != target
    requires Rewrap(ring, s, user, target, source, nonce).Ok? && Wraps(ring, s.ciphertext.fields, user, dek)
    ensures target in ring
    ensures Rewrap(ring, s, user, target, source, nonce).value ==
            s.(ciphertext := Object(s.ciphertext.fields["kek_id" := Text(target)]["dek_nonce" := Base64(nonce)]
                 ["dek_wrapped" := Base64(Sealed(ring[target], nonce, DekPart(user, target), dek))]))
  {
    var f, wrapped := s.ciphertext.fields, Base64(Sealed(ring[target], nonce, DekPart(user, target), dek));
    assert UnwrapDek(ring, f, user) == Ok(dek);
    assert f + map["dek_wrapped" := wrapped, "dek_nonce" := Base64(nonce), "kek_id" := Text(target)] ==
           f["kek_id" := Text(target)]["dek_nonce" := Base64(nonce)]["dek_wrapped" := wrapped];
  }
}
