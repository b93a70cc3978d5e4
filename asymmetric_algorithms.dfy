/**
 * The AsymmetricAlgorithm values KeyCreator refers to: RSA, DSA and ECDSA
 * over the three NIST prime curves. The enum's own source is not part of
 * this model; only the values KeyCreator names appear here.
 */
module AsymmetricAlgorithms {

  datatype AsymmetricAlgorithm =
    | RSA
    | DSA
    | ECDSA_NISTP256
    | ECDSA_NISTP384
    | ECDSA_NISTP521
  {
    /** One of the three curves createECinstance accepts. */
    predicate IsEcdsa() {
      ECDSA_NISTP256? || ECDSA_NISTP384? || ECDSA_NISTP521?
    }
  }

}
