# KeyCreator: asymmetric key-pair assembly, modelled in Dafny

This project models `com.jkovacic.cryptoutil.KeyCreator`. That class builds an RSA, DSA or ECDSA
key pair (over NIST P-256, P-384 or P-521) from raw byte-array parameters, or from an existing
public/private key pair. It returns `null` for anything it cannot vouch for.

Structure:

- `BigIntegers` (`big_integers.dfy`) models `new BigInteger(byte[])`, which KeyCreator uses to
  decode RSA and DSA parameters. It reads big-endian two's complement. It is defined once as the
  unsigned reading corrected for the sign bit. It is proved equal to a second, independent
  definition: Horner's rule with the first octet sign-extended.
- `AsymmetricAlgorithms`, `Jca` and `EcUtils` hold the collaborators: algorithm tags, key handles,
  key specifications, the JCA `KeyFactory` provider and `EcUtil`. The provider and `EcUtil` are not
  part of this model. Each is a record of function values (`Provider`, `EcUtil`). Every result
  below holds for every possible behaviour of these collaborators.
- `KeyCreation` (`key_creator.dfy`) gives each static factory twice:
  - as a function (`RsaInstance`, `DsaInstance`, `EcInstance`, `FromKeys`, `FromKeypair`). It
    returns the outcome (a record, `null` with the reason, or an uncaught exception) and
    the ordered trace of collaborator calls made on the way;
  - as a static method of class `KeyCreator`. The method performs the source's steps in order,
    allocates the object and assigns `pktype`, `prvkey` and `pubkey`. It is proved to agree with
    the function, trace included.
- `KeyCreationProperties` (`key_creator_properties.dfy`) proves two things. First, keys built from
  parameters are accepted again by `createFromKeys` with the same tag, given a well-behaved
  provider. Second, it records the one-directional family check of `createFromKeys`.

The trace is what states the ordering guarantees. The sanity checks call nothing. In
`createECinstance`, every key specification reaches the provider only after `validPublicKey` has
accepted the very point that the public specification carries.

`new BigInteger(byte[])` reads two's complement, not unsigned, so a first octet of `0x80` or
more gives a negative modulus, exponent or DSA value unless a zero octet is prefixed
(`SignedZeroPrefix`).

## Model

| member | source | states |
|---|---|---|
| `BigIntegers.Signed` | com/jkovacic/cryptoutil/KeyCreator.java:78-80 | `new BigInteger(byte[])` on a non-empty array is negative exactly when the first octet is 0x80 or more |
| `BigIntegers.Unsigned` | com/jkovacic/cryptoutil/KeyCreator.java:78-80 | the big-endian unsigned reading of n octets is below 256^n |
| `BigIntegers.SignedIsSignExtended` | com/jkovacic/cryptoutil/KeyCreator.java:146-150 | the decoding equals Horner's rule with a sign-extended first octet (two's-complement big-endian, as Java documents it) |
| `BigIntegers.SignedRange` | com/jkovacic/cryptoutil/KeyCreator.java:146-150 | an n-octet decoded value lies in [-256^n/2, 256^n/2) |
| `BigIntegers.SignedZeroPrefix` | com/jkovacic/cryptoutil/KeyCreator.java:78-80 | a leading zero octet makes the decoding equal the unsigned reading |
| `BigIntegers.SignedSignExtension` | com/jkovacic/cryptoutil/KeyCreator.java:78-80 | a redundant 0xFF before a negative encoding leaves the value unchanged |
| `KeyCreation.Generate` | com/jkovacic/cryptoutil/KeyCreator.java:86-103 | both keys come back exactly when neither generate call throws or returns null; generatePublic is skipped when generatePrivate throws |
| `KeyCreation.RsaInstance` | com/jkovacic/cryptoutil/KeyCreator.java:57-112 | a null or empty n, e or d gives null with no collaborator call; otherwise the RSA factory is asked for first; a record exists exactly when the factory exists and both keys are generated from the signed-decoded specs (n, d) and (n, e); the record is tagged RSA and holds those keys |
| `KeyCreation.DsaInstance` | com/jkovacic/cryptoutil/KeyCreator.java:125-182 | a null or empty p, q, g, y or x gives null with no call; otherwise a record exists exactly when the DSA factory exists and keys are generated from (x, p, q, g) and (y, p, q, g); the record is tagged DSA |
| `KeyCreation.EcInstance` | com/jkovacic/cryptoutil/KeyCreator.java:194-273 | null alg, q or d, or empty q or d, gives null with no call; RSA or DSA gives null with no call; a decoded point rejected by validPublicKey gives null and no key generation; a validated point at infinity makes `new ECPublicKeySpec` throw IllegalArgumentException, before any key generation; whenever keys are generated, the validated point is the one handed over; a record exists exactly when all checks pass, the point is affine and both keys are generated; the record is tagged with the requested curve |
| `KeyCreation.CurveOf` | com/jkovacic/cryptoutil/KeyCreator.java:324-340 | the domain is mapped to a curve whose getSpec equals it, trying P-256, P-384 and P-521 in that order; the result is none exactly when no curve matches |
| `KeyCreation.FromKeys` | com/jkovacic/cryptoutil/KeyCreator.java:284-366 | a null argument gives null; a recognised public key with a private key of another family gives null; a private key of no known family gives null; an RSA or DSA private key is accepted with a public key of the same or an unrecognised type; ClassCastException occurs exactly for an unrecognised public key with an EC private key; for two EC keys the checks run in order: domain equality, then the curve mapping, then point validation; every record holds the given keys and is consistently tagged |
| `KeyCreation.FromKeysChecked` | com/jkovacic/cryptoutil/KeyCreator.java:292-300 | corrected family check (see Findings): never throws; rejects as a mismatch exactly the pairs of different families; agrees with FromKeys whenever the public key's type is recognised |
| `KeyCreation.FromKeypair` | com/jkovacic/cryptoutil/KeyCreator.java:375-385 | a null pair gives null; otherwise the outcome is that of createFromKeys on the pair's public and private key |
| `KeyCreation.KeyCreator.constructor` | com/jkovacic/cryptoutil/KeyCreator.java:34-46 | a new record has all three fields null |
| `KeyCreation.KeyCreator.GenerateKeys` | com/jkovacic/cryptoutil/KeyCreator.java:89-103 | the try block: returns both keys exactly when Generate succeeds, with the same trace |
| `KeyCreation.KeyCreator.CreateRsaInstance` | com/jkovacic/cryptoutil/KeyCreator.java:57-112 | returns null exactly when RsaInstance does not create; otherwise a fresh record with no null field, holding RsaInstance's tag and keys; makes RsaInstance's calls |
| `KeyCreation.KeyCreator.CreateDsaInstance` | com/jkovacic/cryptoutil/KeyCreator.java:125-182 | the same, against DsaInstance |
| `KeyCreation.KeyCreator.CreateEcInstance` | com/jkovacic/cryptoutil/KeyCreator.java:194-273 | the same, against EcInstance; reports the thrown IllegalArgumentException exactly when EcInstance throws |
| `KeyCreation.KeyCreator.CreateFromKeys` | com/jkovacic/cryptoutil/KeyCreator.java:284-366 | the same, against FromKeys; reports the thrown ClassCastException exactly when FromKeys throws |
| `KeyCreation.KeyCreator.CreateFromKeypair` | com/jkovacic/cryptoutil/KeyCreator.java:375-385 | the same, against FromKeypair |
| `KeyCreation.KeyCreator.GetPublic` | com/jkovacic/cryptoutil/KeyCreator.java:394-402 | null without a public key, otherwise that key's encoding (itself null when the key has none) |
| `KeyCreation.KeyCreator.GetPrivate` | com/jkovacic/cryptoutil/KeyCreator.java:411-419 | null without a private key, otherwise that key's encoding |
| `KeyCreation.KeyCreator.GetPublicKey` | com/jkovacic/cryptoutil/KeyCreator.java:426-434 | the stored public key, unchanged; never null on a record a factory built |
| `KeyCreation.KeyCreator.GetPrivateKey` | com/jkovacic/cryptoutil/KeyCreator.java:441-449 | the stored private key, unchanged; never null on a record a factory built |
| `KeyCreation.KeyCreator.GetType` | com/jkovacic/cryptoutil/KeyCreator.java:454-457 | the stored tag; never null on a record a factory built |
| `KeyCreationProperties.RsaRoundTrip` | com/jkovacic/cryptoutil/KeyCreator.java:304-307 | with a provider that makes RSA keys from RSA specs, the pair createRSAinstance built is accepted by createFromKeys with tag RSA and the same keys |
| `KeyCreationProperties.DsaRoundTrip` | com/jkovacic/cryptoutil/KeyCreator.java:308-311 | the same for DSA |
| `KeyCreationProperties.EcRoundTrip` | com/jkovacic/cryptoutil/KeyCreator.java:312-347 | with a provider whose EC keys keep their spec's domain and point, and three distinct curve domains, the pair createECinstance built maps back to the same curve |
| `KeyCreationProperties.FromKeysAcceptsUnrecognisedPublicKey` | com/jkovacic/cryptoutil/KeyCreator.java:293-307 | as written, a public key of unrecognised type with an RSA private key is accepted and tagged RSA |
| `KeyCreationProperties.FromKeysThrowsOnUnrecognisedPublicKey` | com/jkovacic/cryptoutil/KeyCreator.java:312-315 | as written, a public key of unrecognised type with an EC private key throws ClassCastException |
| `KeyCreationProperties.FromKeysCheckedRejectsUnrecognisedPublicKey` | com/jkovacic/cryptoutil/KeyCreator.java:292-300 | corrected, both pairs above are rejected as an algorithm mismatch |

## Findings

| source | as written | input that shows it | evidently intended | confidence | as-written member | corrected member |
|---|---|---|---|---|---|---|
| com/jkovacic/cryptoutil/KeyCreator.java:293-315 | The family check only rejects a recognised public key whose private key is of another family. An EC private key then reaches the cast `(ECPublicKey) pubKey`. | a public key implementing none of RSAPublicKey, DSAPublicKey, ECPublicKey, with an ECPrivateKey | return null ("null if invalid or incompatible keys"), by checking the family in both directions | high; not executed | `KeyCreationProperties.FromKeysThrowsOnUnrecognisedPublicKey` | `KeyCreation.FromKeysChecked` |

The class method `KeyCreator.CreateFromKeys` keeps the behaviour as written, because it models
the code. `FromKeysChecked` is the corrected decision. It is proved never to throw, to reject
exactly the pairs of different families, and to agree with `FromKeys` whenever the public key's
type is recognised.

## Left out

- The JCA provider (`KeyFactory.getInstance`, `generatePrivate`, `generatePublic`) is a parameter
  of type `Provider`. Both exceptions become a `null` result. The round-trip lemmas state as a
  precondition which provider behaviour they need (`WellBehaved`).
- `EcUtil` (`octetStringToInteger`, `octetStringToEcPoint`, `getSpec`, `validPublicKey`) is a
  parameter of type `EcUtil`. No point decoding and no curve arithmetic is modelled. Any
  exception thrown inside these helpers is not modelled.
- `getEncoded()` (DER serialisation) is an opaque optional octet string stored in each key handle.
- `ECParameterSpec` does not override `equals`, so lines 319-333 compare object references.
  A parameter object is modelled by its identity alone. Two distinct objects for the same curve
  are different values, so `FromKeys` rejects such a pair (DomainMismatch or UnsupportedCurve).
- EC acceptance in `createFromKeys`, and so `EcRoundTrip`, relies on `EcUtil.getSpec` returning
  the same object on every call. The model assumes this by making `getSpec` a function.
- `EcRoundTrip` also relies on the provider handing back, from the keys' `getParams()`, the very
  object it was given in the specification. `WellBehaved` states this as a precondition.
- `getParams()` never returns null in the model. In the source, a null from the public key would
  throw NullPointerException at line 319. A null from the private key would make `equals` false,
  so the method would return null at line 321.
- A key handle belongs to exactly one family. A Java object implementing, say, both RSAPublicKey
  and DSAPublicKey is not modelled.
- `AsymmetricAlgorithm` is not part of this model beyond the five values KeyCreator names.
  `getName()` is replaced by the `KeyFactoryName` the factory is requested for.
- Java `byte` values are kept as octets 0..255. Signedness is applied where the source decodes:
  in `new BigInteger(byte[])`.
- The `null == alg` check at lines 354-357 cannot fail in the model, because every path reaching
  it has set the tag. The method keeps it.
- com/jkovacic/ssh2/ISshEncryptionAlgorithmFamily.java is an empty marker interface with no
  behaviour.
- Concurrency and object identity: records are compared by content. Aliasing of the key handles
  between records is not modelled.
