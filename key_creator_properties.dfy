/**
 * Properties that relate several KeyCreator operations: keys built from
 * parameters are accepted again by createFromKeys with the same tag, and
 * the one-directional family check of createFromKeys, as written and as
 * corrected.
 */
module KeyCreationProperties {
  import opened Options
  import opened AsymmetricAlgorithms
  import opened Jca
  import opened EcUtils
  import opened KeyCreation

  /**
   * A provider that builds keys of the family its factory is named for, and
   * whose EC keys hand back, from getParams() and getW(), the very parameter
   * object and the point of the specification they were built from.
   */
  ghost predicate WellBehaved(p: Provider) {
    && (forall spec :: p.generatePrivate(RsaFactory, spec).Generated? ==>
          p.generatePrivate(RsaFactory, spec).key.RSAPrivateKey?)
    && (forall spec :: p.generatePublic(RsaFactory, spec).Generated? ==>
          p.generatePublic(RsaFactory, spec).key.RSAPublicKey?)
    && (forall spec :: p.generatePrivate(DsaFactory, spec).Generated? ==>
          p.generatePrivate(DsaFactory, spec).key.DSAPrivateKey?)
    && (forall spec :: p.generatePublic(DsaFactory, spec).Generated? ==>
          p.generatePublic(DsaFactory, spec).key.DSAPublicKey?)
    && (forall s, params :: p.generatePrivate(EcFactory, ECPrivateKeySpec(s, params)).Generated? ==>
          var k := p.generatePrivate(EcFactory, ECPrivateKeySpec(s, params)).key;
          k.ECPrivateKey? && k.params == params)
    && (forall w, params :: p.generatePublic(EcFactory, ECPublicKeySpec(w, params)).Generated? ==>
          var k := p.generatePublic(EcFactory, ECPublicKeySpec(w, params)).key;
          k.ECPublicKey? && k.params == params && k.w == w)
  }

  /** EcUtil knows all three curves, with a distinct parameter object for each. */
  predicate CurvesKnownAndDistinct(ec: EcUtil) {
    && ec.getSpec(ECDSA_NISTP256).Some?
    && ec.getSpec(ECDSA_NISTP384).Some?
    && ec.getSpec(ECDSA_NISTP521).Some?
    && ec.getSpec(ECDSA_NISTP256) != ec.getSpec(ECDSA_NISTP384)
    && ec.getSpec(ECDSA_NISTP256) != ec.getSpec(ECDSA_NISTP521)
    && ec.getSpec(ECDSA_NISTP384) != ec.getSpec(ECDSA_NISTP521)
  }

  /** An RSA pair built from parameters is accepted again by createFromKeys, tagged RSA. */
  lemma RsaRoundTrip(env: Env, n: Option<Bytes>, e: Option<Bytes>, d: Option<Bytes>)
    requires WellBehaved(env.provider)
    requires RsaInstance(env, n, e, d).outcome.Created?
    ensures var o := RsaInstance(env, n, e, d).outcome;
            FromKeys(env, Some(o.pub), Some(o.prv)).outcome == o
  {
  }

  /** A DSA pair built from parameters is accepted again by createFromKeys, tagged DSA. */
  lemma DsaRoundTrip(env: Env, p: Option<Bytes>, q: Option<Bytes>, g: Option<Bytes>,
                     y: Option<Bytes>, x: Option<Bytes>)
    requires WellBehaved(env.provider)
    requires DsaInstance(env, p, q, g, y, x).outcome.Created?
    ensures var o := DsaInstance(env, p, q, g, y, x).outcome;
            FromKeys(env, Some(o.pub), Some(o.prv)).outcome == o
  {
  }

  /**
   * An EC pair built from parameters is accepted again by createFromKeys and
   * mapped back to the curve it was built on: the same parameter object on
   * both keys, found again for the same curve, and the same point validated.
   */
  lemma EcRoundTrip(env: Env, alg: Option<AsymmetricAlgorithm>, q: Option<Bytes>, d: Option<Bytes>)
    requires WellBehaved(env.provider) && CurvesKnownAndDistinct(env.ec)
    requires EcInstance(env, alg, q, d).outcome.Created?
    ensures var o := EcInstance(env, alg, q, d).outcome;
            FromKeys(env, Some(o.pub), Some(o.prv)).outcome == o
  {
  }

  // ------------------------------------------------ the family check, as written

  /** As written: an unrecognised public key with an RSA private key is accepted, tagged RSA. */
  lemma FromKeysAcceptsUnrecognisedPublicKey(env: Env)
    ensures var pub, prv := OtherPublicKey(1, None), RSAPrivateKey(2, None);
            FromKeys(env, Some(pub), Some(prv)).outcome == Created(RSA, prv, pub)
  {
  }

  /** As written: an unrecognised public key with an EC private key reaches the cast and throws. */
  lemma FromKeysThrowsOnUnrecognisedPublicKey(env: Env)
    ensures FromKeys(env, Some(OtherPublicKey(1, None)),
                     Some(ECPrivateKey(ECParameterSpec(0), 2, None))).outcome == ClassCastException
  {
  }

  /** Corrected: both pairs are rejected as incompatible, and nothing throws. */
  lemma FromKeysCheckedRejectsUnrecognisedPublicKey(env: Env, pub: PublicKey, prv: PrivateKey)
    requires pub.OtherPublicKey? && prv.Family() != OtherKeys
    ensures FromKeysChecked(env, Some(pub), Some(prv)).outcome == Null(AlgorithmMismatch)
  {
  }

}
