/**
 * The parts of the Java Cryptography Architecture KeyCreator uses, reduced
 * to what KeyCreator inspects: key handles (which key interface they
 * implement, and for EC keys the parameter object and the public point),
 * the key specifications it builds, and a KeyFactory provider whose
 * behaviour is not known and is therefore a parameter.
 */
module Jca {
  import opened Options
  import opened BigIntegers

  /** java.security.spec.ECPoint: affine coordinates, or the point at infinity. */
  datatype ECPoint = ECPoint(x: int, y: int) | PointInfinity

  /**
   * A java.security.spec.ECParameterSpec object, reduced to its identity.
   * ECParameterSpec does not override `equals`, so `spec.equals(other)`
   * compares references: two distinct objects describing the same curve are
   * different values here.
   */
  datatype ECParameterSpec = ECParameterSpec(reference: nat)

  /** Which key interfaces a handle implements, as `instanceof` sees them. */
  datatype KeyFamily = RsaKeys | DsaKeys | EcKeys | OtherKeys

  /**
   * A java.security.PublicKey made by some provider. `handle` stands for the
   * provider's opaque key material; `encoded` is what `getEncoded()` returns
   * (the DER encoding, or null when the key does not support encoding).
   */
  datatype PublicKey =
    | RSAPublicKey(handle: nat, encoded: Option<seq<Byte>>)
    | DSAPublicKey(handle: nat, encoded: Option<seq<Byte>>)
    | ECPublicKey(params: ECParameterSpec, w: ECPoint, handle: nat, encoded: Option<seq<Byte>>)
    | OtherPublicKey(handle: nat, encoded: Option<seq<Byte>>)
  {
    function Family(): KeyFamily {
      match this
      case RSAPublicKey(_, _) => RsaKeys
      case DSAPublicKey(_, _) => DsaKeys
      case ECPublicKey(_, _, _, _) => EcKeys
      case OtherPublicKey(_, _) => OtherKeys
    }
  }

  /** A java.security.PrivateKey made by some provider; fields as for PublicKey. */
  datatype PrivateKey =
    | RSAPrivateKey(handle: nat, encoded: Option<seq<Byte>>)
    | DSAPrivateKey(handle: nat, encoded: Option<seq<Byte>>)
    | ECPrivateKey(params: ECParameterSpec, handle: nat, encoded: Option<seq<Byte>>)
    | OtherPrivateKey(handle: nat, encoded: Option<seq<Byte>>)
  {
    function Family(): KeyFamily {
      match this
      case RSAPrivateKey(_, _) => RsaKeys
      case DSAPrivateKey(_, _) => DsaKeys
      case ECPrivateKey(_, _, _) => EcKeys
      case OtherPrivateKey(_, _) => OtherKeys
    }
  }

  /** java.security.KeyPair: either half may be null. */
  datatype KeyPair = KeyPair(publicKey: Option<PublicKey>, privateKey: Option<PrivateKey>)

  /** The key specifications KeyCreator builds before calling the provider. */
  datatype KeySpec =
    | RSAPrivateKeySpec(modulus: int, privateExponent: int)
    | RSAPublicKeySpec(modulus: int, publicExponent: int)
    | DSAPrivateKeySpec(x: int, p: int, q: int, g: int)
    | DSAPublicKeySpec(y: int, p: int, q: int, g: int)
    | ECPrivateKeySpec(s: int, params: ECParameterSpec)
    | ECPublicKeySpec(w: ECPoint, params: ECParameterSpec)

  /**
   * The algorithm a KeyFactory is requested for: the name of
   * AsymmetricAlgorithm.RSA, the name of AsymmetricAlgorithm.DSA, and "EC".
   */
  datatype KeyFactoryName = RsaFactory | DsaFactory | EcFactory

  /**
   * What `generatePrivate` / `generatePublic` do with a specification: return
   * a key, return null, or throw InvalidKeySpecException.
   */
  datatype Generated<+K> = Generated(key: K) | ReturnedNull | InvalidKeySpecException

  /**
   * The security provider behind `KeyFactory`. `hasKeyFactory(f)` is false
   * when `KeyFactory.getInstance` throws NoSuchAlgorithmException.
   */
  datatype Provider = Provider(
    hasKeyFactory: KeyFactoryName -> bool,
    generatePrivate: (KeyFactoryName, KeySpec) -> Generated<PrivateKey>,
    generatePublic: (KeyFactoryName, KeySpec) -> Generated<PublicKey>)

}
