/**
 * The EcUtil helpers KeyCreator calls. Their bodies are not part of this
 * model: octet-string decoding, the curve table and the public-point check
 * are uninterpreted, so one value of `EcUtil` fixes one possible behaviour
 * of all four, and every statement about KeyCreator holds for all of them.
 */
module EcUtils {
  import opened Options
  import opened BigIntegers
  import opened AsymmetricAlgorithms
  import opened Jca

  datatype EcUtil = EcUtil(
    // EcUtil.octetStringToInteger: the private scalar, or null
    octetStringToInteger: seq<Byte> -> Option<int>,
    // EcUtil.octetStringToEcPoint: the public point on the given curve, or null
    octetStringToEcPoint: (AsymmetricAlgorithm, seq<Byte>) -> Option<ECPoint>,
    // EcUtil.getSpec: the parameter object of a curve (the same object on every call), or null
    getSpec: AsymmetricAlgorithm -> Option<ECParameterSpec>,
    // EcUtil.validPublicKey: whether the point is an acceptable public key on the curve
    validPublicKey: (AsymmetricAlgorithm, ECPoint) -> bool)

}
