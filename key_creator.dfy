/**
 * KeyCreator: assembles an asymmetric key pair (RSA, DSA, or ECDSA over
 * P-256, P-384, P-521) from raw parameters or from existing keys, and
 * returns null for anything it cannot vouch for.
 *
 * Each static factory is given twice: as a function (`RsaInstance`, ...)
 * that says what the call ends in and which collaborator calls it makes on
 * the way, and as a static method of class `KeyCreator` that performs the
 * same steps on a fresh object and is proved to agree with the function.
 */
module KeyCreation {
  import opened Options
  import opened BigIntegers
  import opened AsymmetricAlgorithms
  import opened Jca
  import opened EcUtils

  type Bytes = seq<Byte>

  /** Everything KeyCreator calls into without defining it. */
  datatype Env = Env(provider: Provider, ec: EcUtil)

  /** One call into a collaborator, with what it answered where that steers KeyCreator. */
  datatype Call =
    | GetKeyFactory(name: KeyFactoryName, available: bool)
    | GeneratePrivate(factory: KeyFactoryName, spec: KeySpec)
    | GeneratePublic(factory: KeyFactoryName, spec: KeySpec)
    | OctetStringToInteger(octets: Bytes)
    | OctetStringToEcPoint(curve: AsymmetricAlgorithm, octets: Bytes)
    | GetSpec(curve: AsymmetricAlgorithm)
    | ValidPublicKey(curve: AsymmetricAlgorithm, w: ECPoint, valid: bool)
  {
    /** A call that hands a key specification to the provider. */
    predicate IsKeyGeneration() {
      GeneratePrivate? || GeneratePublic?
    }
  }

  /** Why a factory returned null. */
  datatype Reason =
    | NullArgument          // a null reference or an empty array among the arguments
    | UnsupportedAlgorithm  // a requested algorithm or a private-key type the path does not handle
    | NoSuchAlgorithm       // KeyFactory.getInstance threw NoSuchAlgorithmException
    | DecodingFailed        // an EcUtil decoder, or getSpec, returned null
    | InvalidPublicKey      // EcUtil.validPublicKey rejected the public point
    | InvalidKeySpec        // generatePrivate or generatePublic threw InvalidKeySpecException
    | ProviderReturnedNull  // generatePrivate or generatePublic returned null
    | AlgorithmMismatch     // a recognised public key whose private key is of another family
    | DomainMismatch        // two EC keys over different domain parameters
    | UnsupportedCurve      // an EC domain that is none of P-256, P-384, P-521

  /** What a factory call ends in: a record, null, or an exception nothing catches. */
  datatype Outcome =
    | Created(alg: AsymmetricAlgorithm, prv: PrivateKey, pub: PublicKey)
    | Null(reason: Reason)
    | ClassCastException        // createFromKeys's unchecked cast to ECPublicKey
    | IllegalArgumentException  // new ECPublicKeySpec(w, spec) with w the point at infinity
  {
    /** The call ends in an exception rather than a return value. */
    predicate Throws() {
      ClassCastException? || IllegalArgumentException?
    }
  }

  /** A factory call's outcome and the collaborator calls it made, in order. */
  datatype Run = Run(outcome: Outcome, calls: seq<Call>)

  /** Neither null nor of length 0: the sanity check every parameter factory makes. */
  predicate Present(a: Option<Bytes>) {
    a.Some? && |a.value| > 0
  }

  /** No specification was handed to the provider. */
  predicate NoKeyGeneration(calls: seq<Call>) {
    forall i | 0 <= i < |calls| :: !calls[i].IsKeyGeneration()
  }

  /** The key family an algorithm tag stands for. */
  function FamilyOf(alg: AsymmetricAlgorithm): KeyFamily {
    match alg
    case RSA => RsaKeys
    case DSA => DsaKeys
    case _ => EcKeys
  }

  /** Both keys can be generated from their specifications: no exception, no null. */
  predicate GenerationSucceeds(p: Provider, f: KeyFactoryName, privspec: KeySpec, pubspec: KeySpec) {
    p.generatePrivate(f, privspec).Generated? && p.generatePublic(f, pubspec).Generated?
  }

  /**
   * The try block the three parameter factories share: generate the private
   * key, then (unless that threw) the public key, and keep them only when
   * neither call threw or returned null.
   */
  function Generate(p: Provider, f: KeyFactoryName, alg: AsymmetricAlgorithm,
                    privspec: KeySpec, pubspec: KeySpec, before: seq<Call>): (r: Run)
    ensures r.outcome.Created? <==> GenerationSucceeds(p, f, privspec, pubspec)
    ensures r.outcome.Created? ==>
      r.outcome == Created(alg, p.generatePrivate(f, privspec).key, p.generatePublic(f, pubspec).key)
    ensures r.outcome.Null? || r.outcome.Created?
    ensures r.calls == before + [GeneratePrivate(f, privspec)]
                      + (if p.generatePrivate(f, privspec).InvalidKeySpecException? then []
                         else [GeneratePublic(f, pubspec)])
  {
    var calls := before + [GeneratePrivate(f, privspec)];
    var prvk := p.generatePrivate(f, privspec);
    if prvk.InvalidKeySpecException? then Run(Null(InvalidKeySpec), calls)
    else
      var calls := calls + [GeneratePublic(f, pubspec)];
      var pubk := p.generatePublic(f, pubspec);
      if pubk.InvalidKeySpecException? then Run(Null(InvalidKeySpec), calls)
      else if prvk.ReturnedNull? || pubk.ReturnedNull? then Run(Null(ProviderReturnedNull), calls)
      else Run(Created(alg, prvk.key, pubk.key), calls)
  }

  // ---------------------------------------------------------------- RSA

  /** The RSA specifications: n, d and e decoded by `new BigInteger(byte[])`. */
  function RsaPrivateSpec(n: Bytes, d: Bytes): KeySpec
    requires |n| > 0 && |d| > 0
  {
    RSAPrivateKeySpec(Signed(n), Signed(d))
  }

  function RsaPublicSpec(n: Bytes, e: Bytes): KeySpec
    requires |n| > 0 && |e| > 0
  {
    RSAPublicKeySpec(Signed(n), Signed(e))
  }

  /** createRSAinstance(n, e, d): modulus, public exponent, private exponent. */
  function RsaInstance(env: Env, n: Option<Bytes>, e: Option<Bytes>, d: Option<Bytes>): (r: Run)
    // a null or empty parameter is rejected before any collaborator is called
    ensures !(Present(n) && Present(e) && Present(d)) ==> r == Run(Null(NullArgument), [])
    // otherwise the first call asks for the RSA key factory
    ensures Present(n) && Present(e) && Present(d) ==>
      |r.calls| > 0 && r.calls[0] == GetKeyFactory(RsaFactory, env.provider.hasKeyFactory(RsaFactory))
    // a record exactly when the factory exists and both keys are generated ...
    ensures r.outcome.Created? <==>
      && Present(n) && Present(e) && Present(d)
      && env.provider.hasKeyFactory(RsaFactory)
      && GenerationSucceeds(env.provider, RsaFactory, RsaPrivateSpec(n.value, d.value), RsaPublicSpec(n.value, e.value))
    // ... and then it is tagged RSA and holds the two generated keys
    ensures r.outcome.Created? ==>
      r.outcome == Created(RSA,
        env.provider.generatePrivate(RsaFactory, RsaPrivateSpec(n.value, d.value)).key,
        env.provider.generatePublic(RsaFactory, RsaPublicSpec(n.value, e.value)).key)
    ensures !r.outcome.Throws()
  {
    if !(Present(n) && Present(e) && Present(d)) then Run(Null(NullArgument), [])
    else if !env.provider.hasKeyFactory(RsaFactory) then
      Run(Null(NoSuchAlgorithm), [GetKeyFactory(RsaFactory, false)])
    else
      Generate(env.provider, RsaFactory, RSA, RsaPrivateSpec(n.value, d.value),
               RsaPublicSpec(n.value, e.value), [GetKeyFactory(RsaFactory, true)])
  }

  // ---------------------------------------------------------------- DSA

  /** The DSA specifications: private (x, p, q, g) and public (y, p, q, g), signed decoding. */
  function DsaPrivateSpec(p: Bytes, q: Bytes, g: Bytes, x: Bytes): KeySpec
    requires |p| > 0 && |q| > 0 && |g| > 0 && |x| > 0
  {
    DSAPrivateKeySpec(Signed(x), Signed(p), Signed(q), Signed(g))
  }

  function DsaPublicSpec(p: Bytes, q: Bytes, g: Bytes, y: Bytes): KeySpec
    requires |p| > 0 && |q| > 0 && |g| > 0 && |y| > 0
  {
    DSAPublicKeySpec(Signed(y), Signed(p), Signed(q), Signed(g))
  }

  predicate DsaPresent(p: Option<Bytes>, q: Option<Bytes>, g: Option<Bytes>, y: Option<Bytes>, x: Option<Bytes>) {
    Present(p) && Present(q) && Present(g) && Present(y) && Present(x)
  }

  /** createDSAinstance(p, q, g, y, x): prime, sub-prime, base, public and private value. */
  function DsaInstance(env: Env, p: Option<Bytes>, q: Option<Bytes>, g: Option<Bytes>,
                       y: Option<Bytes>, x: Option<Bytes>): (r: Run)
    ensures !DsaPresent(p, q, g, y, x) ==> r == Run(Null(NullArgument), [])
    ensures DsaPresent(p, q, g, y, x) ==>
      |r.calls| > 0 && r.calls[0] == GetKeyFactory(DsaFactory, env.provider.hasKeyFactory(DsaFactory))
    ensures r.outcome.Created? <==>
      && DsaPresent(p, q, g, y, x)
      && env.provider.hasKeyFactory(DsaFactory)
      && GenerationSucceeds(env.provider, DsaFactory, DsaPrivateSpec(p.value, q.value, g.value, x.value),
                            DsaPublicSpec(p.value, q.value, g.value, y.value))
    ensures r.outcome.Created? ==>
      r.outcome == Created(DSA,
        env.provider.generatePrivate(DsaFactory, DsaPrivateSpec(p.value, q.value, g.value, x.value)).key,
        env.provider.generatePublic(DsaFactory, DsaPublicSpec(p.value, q.value, g.value, y.value)).key)
    ensures !r.outcome.Throws()
  {
    if !DsaPresent(p, q, g, y, x) then Run(Null(NullArgument), [])
    else if !env.provider.hasKeyFactory(DsaFactory) then
      Run(Null(NoSuchAlgorithm), [GetKeyFactory(DsaFactory, false)])
    else
      Generate(env.provider, DsaFactory, DSA, DsaPrivateSpec(p.value, q.value, g.value, x.value),
               DsaPublicSpec(p.value, q.value, g.value, y.value), [GetKeyFactory(DsaFactory, true)])
  }

  // ---------------------------------------------------------------- EC

  /** All three EcUtil conversions of createECinstance return non-null. */
  predicate EcDecodes(ec: EcUtil, alg: AsymmetricAlgorithm, q: Bytes, d: Bytes) {
    && ec.octetStringToInteger(d).Some?
    && ec.octetStringToEcPoint(alg, q).Some?
    && ec.getSpec(alg).Some?
  }

  function EcPrivateSpec(ec: EcUtil, alg: AsymmetricAlgorithm, q: Bytes, d: Bytes): KeySpec
    requires EcDecodes(ec, alg, q, d)
  {
    ECPrivateKeySpec(ec.octetStringToInteger(d).value, ec.getSpec(alg).value)
  }

  function EcPublicSpec(ec: EcUtil, alg: AsymmetricAlgorithm, q: Bytes, d: Bytes): KeySpec
    requires EcDecodes(ec, alg, q, d)
  {
    ECPublicKeySpec(ec.octetStringToEcPoint(alg, q).value, ec.getSpec(alg).value)
  }

  /** Every check createECinstance makes before it calls the provider passes. */
  predicate EcAccepts(env: Env, alg: Option<AsymmetricAlgorithm>, q: Option<Bytes>, d: Option<Bytes>) {
    && alg.Some? && Present(q) && Present(d)
    && alg.value.IsEcdsa()
    && env.provider.hasKeyFactory(EcFactory)
    && EcDecodes(env.ec, alg.value, q.value, d.value)
    && env.ec.validPublicKey(alg.value, env.ec.octetStringToEcPoint(alg.value, q.value).value)
  }

  /**
   * Every call that hands a specification to the provider comes after a
   * successful validPublicKey check of `w` on `curve`, and every public-key
   * specification handed over carries exactly that point.
   */
  predicate ValidatedBeforeGeneration(calls: seq<Call>, curve: AsymmetricAlgorithm, w: ECPoint) {
    forall i | 0 <= i < |calls| && calls[i].IsKeyGeneration() ::
      && ValidPublicKey(curve, w, true) in calls[..i]
      && (calls[i].GeneratePublic? ==> calls[i].spec.ECPublicKeySpec? && calls[i].spec.w == w)
  }

  /** createECinstance(alg, q, d): curve, public point octets, private scalar octets. */
  function EcInstance(env: Env, alg: Option<AsymmetricAlgorithm>, q: Option<Bytes>, d: Option<Bytes>): (r: Run)
    ensures alg.None? || !Present(q) || !Present(d) ==> r == Run(Null(NullArgument), [])
    // RSA or DSA asked of the EC factory: null, and no collaborator is called
    ensures alg.Some? && Present(q) && Present(d) && !alg.value.IsEcdsa() ==>
      r == Run(Null(UnsupportedAlgorithm), [])
    // a decoded point that fails validation: null, and no key is generated
    ensures && alg.Some? && Present(q) && Present(d) && alg.value.IsEcdsa()
            && env.provider.hasKeyFactory(EcFactory) && EcDecodes(env.ec, alg.value, q.value, d.value)
            && !env.ec.validPublicKey(alg.value, env.ec.octetStringToEcPoint(alg.value, q.value).value)
            ==> r.outcome == Null(InvalidPublicKey) && NoKeyGeneration(r.calls)
    // whenever the provider is called, the point it gets was validated first
    ensures || NoKeyGeneration(r.calls)
            || (&& alg.Some? && q.Some? && env.ec.octetStringToEcPoint(alg.value, q.value).Some?
                && ValidatedBeforeGeneration(r.calls, alg.value, env.ec.octetStringToEcPoint(alg.value, q.value).value))
    // a validated point at infinity makes the public-key specification's constructor throw
    ensures r.outcome.IllegalArgumentException? <==>
      EcAccepts(env, alg, q, d) && env.ec.octetStringToEcPoint(alg.value, q.value).value.PointInfinity?
    ensures r.outcome.IllegalArgumentException? ==> NoKeyGeneration(r.calls)
    // a record exactly when every check passes, the point is affine and both keys are generated ...
    ensures r.outcome.Created? <==>
      && EcAccepts(env, alg, q, d)
      && !env.ec.octetStringToEcPoint(alg.value, q.value).value.PointInfinity?
      && GenerationSucceeds(env.provider, EcFactory, EcPrivateSpec(env.ec, alg.value, q.value, d.value),
                            EcPublicSpec(env.ec, alg.value, q.value, d.value))
    // ... and then it is tagged with the requested curve and holds the generated keys
    ensures r.outcome.Created? ==>
      r.outcome == Created(alg.value,
        env.provider.generatePrivate(EcFactory, EcPrivateSpec(env.ec, alg.value, q.value, d.value)).key,
        env.provider.generatePublic(EcFactory, EcPublicSpec(env.ec, alg.value, q.value, d.value)).key)
    ensures !r.outcome.ClassCastException?
  {
    if alg.None? || !Present(q) || !Present(d) then Run(Null(NullArgument), [])
    else if !alg.value.IsEcdsa() then Run(Null(UnsupportedAlgorithm), [])
    else if !env.provider.hasKeyFactory(EcFactory) then
      Run(Null(NoSuchAlgorithm), [GetKeyFactory(EcFactory, false)])
    else
      var c, qs, ds := alg.value, q.value, d.value;
      var calls := [GetKeyFactory(EcFactory, true), OctetStringToInteger(ds),
                    OctetStringToEcPoint(c, qs), GetSpec(c)];
      if !EcDecodes(env.ec, c, qs, ds) then Run(Null(DecodingFailed), calls)
      else
        var w := env.ec.octetStringToEcPoint(c, qs).value;
        var valid := env.ec.validPublicKey(c, w);
        var calls := calls + [ValidPublicKey(c, w, valid)];
        if !valid then Run(Null(InvalidPublicKey), calls)
        else if w.PointInfinity? then Run(IllegalArgumentException, calls)
        else
          var r := Generate(env.provider, EcFactory, c, EcPrivateSpec(env.ec, c, qs, ds),
                            EcPublicSpec(env.ec, c, qs, ds), calls);
          assert forall i | 0 <= i < |r.calls| && r.calls[i].IsKeyGeneration() ::
            i >= |calls| && r.calls[..i][|calls| - 1] == ValidPublicKey(c, w, true);
          r
  }

  // ---------------------------------------------------------------- existing keys

  /**
   * The family check of createFromKeys: keyed on the public key's type only,
   * so an unrecognised public key passes it whatever the private key is.
   */
  predicate FamilyCheckRejects(pub: PublicKey, prv: PrivateKey) {
    || (pub.RSAPublicKey? && !prv.RSAPrivateKey?)
    || (pub.DSAPublicKey? && !prv.DSAPrivateKey?)
    || (pub.ECPublicKey? && !prv.ECPrivateKey?)
  }

  /** The curve an EC domain is mapped to: the first of P-256, P-384, P-521 whose EcUtil spec equals it. */
  function CurveOf(ec: EcUtil, spec: ECParameterSpec): (c: Option<AsymmetricAlgorithm>)
    ensures c.Some? ==> c.value.IsEcdsa() && ec.getSpec(c.value) == Some(spec)
    ensures c.None? <==>
      && ec.getSpec(ECDSA_NISTP256) != Some(spec)
      && ec.getSpec(ECDSA_NISTP384) != Some(spec)
      && ec.getSpec(ECDSA_NISTP521) != Some(spec)
    // the order of the tests decides when two curves share a domain
    ensures c == Some(ECDSA_NISTP384) ==> ec.getSpec(ECDSA_NISTP256) != Some(spec)
    ensures c == Some(ECDSA_NISTP521) ==>
      ec.getSpec(ECDSA_NISTP256) != Some(spec) && ec.getSpec(ECDSA_NISTP384) != Some(spec)
  {
    if ec.getSpec(ECDSA_NISTP256) == Some(spec) then Some(ECDSA_NISTP256)
    else if ec.getSpec(ECDSA_NISTP384) == Some(spec) then Some(ECDSA_NISTP384)
    else if ec.getSpec(ECDSA_NISTP521) == Some(spec) then Some(ECDSA_NISTP521)
    else None
  }

  /** The getSpec calls CurveOf makes: the curves it tries, up to the one it finds. */
  function CurveOfCalls(ec: EcUtil, spec: ECParameterSpec): seq<Call> {
    match CurveOf(ec, spec)
    case Some(ECDSA_NISTP256) => [GetSpec(ECDSA_NISTP256)]
    case Some(ECDSA_NISTP384) => [GetSpec(ECDSA_NISTP256), GetSpec(ECDSA_NISTP384)]
    case _ => [GetSpec(ECDSA_NISTP256), GetSpec(ECDSA_NISTP384), GetSpec(ECDSA_NISTP521)]
  }

  /**
   * What a record built from existing keys guarantees: the private key is of
   * the tag's family; the public key is of the same family, or (RSA and DSA
   * only) of a type KeyCreator does not recognise; EC keys share one domain.
   */
  predicate ConsistentPair(alg: AsymmetricAlgorithm, prv: PrivateKey, pub: PublicKey) {
    && FamilyOf(alg) == prv.Family()
    && (pub.Family() == prv.Family() || (pub.Family() == OtherKeys && !alg.IsEcdsa()))
    && (alg.IsEcdsa() ==> pub.ECPublicKey? && prv.ECPrivateKey? && pub.params == prv.params)
  }

  /** createFromKeys(pubKey, privKey). */
  function FromKeys(env: Env, pub: Option<PublicKey>, prv: Option<PrivateKey>): (r: Run)
    ensures pub.None? || prv.None? ==> r == Run(Null(NullArgument), [])
    // a recognised public key with a private key of another family
    ensures pub.Some? && prv.Some? && pub.value.Family() != OtherKeys && pub.value.Family() != prv.value.Family() ==>
      r == Run(Null(AlgorithmMismatch), [])
    // a private key that is none of RSA, DSA, EC is never accepted
    ensures pub.Some? && prv.Some? && prv.value.Family() == OtherKeys ==> r.outcome.Null? && r.calls == []
    // RSA and DSA private keys: accepted with a public key of the same or an unrecognised type
    ensures && pub.Some? && prv.Some? && prv.value.Family() in {RsaKeys, DsaKeys}
            && pub.value.Family() in {prv.value.Family(), OtherKeys} ==>
      r == Run(Created(if prv.value.RSAPrivateKey? then RSA else DSA, prv.value, pub.value), [])
    // the unchecked cast: an unrecognised public key with an EC private key throws
    ensures r.outcome.ClassCastException? <==>
      pub.Some? && prv.Some? && pub.value.OtherPublicKey? && prv.value.ECPrivateKey?
    ensures !r.outcome.IllegalArgumentException?
    // two EC keys: domains compared first, then mapped to a curve, then the point validated
    ensures pub.Some? && prv.Some? && pub.value.ECPublicKey? && prv.value.ECPrivateKey? ==>
      var spec, w := pub.value.params, pub.value.w;
      if spec != prv.value.params then r == Run(Null(DomainMismatch), [])
      else if CurveOf(env.ec, spec).None? then r.outcome == Null(UnsupportedCurve) && r.calls == CurveOfCalls(env.ec, spec)
      else
        var c := CurveOf(env.ec, spec).value;
        && r.calls == CurveOfCalls(env.ec, spec) + [ValidPublicKey(c, w, env.ec.validPublicKey(c, w))]
        && r.outcome == if env.ec.validPublicKey(c, w) then Created(c, prv.value, pub.value) else Null(InvalidPublicKey)
    // every record holds the two keys passed in, consistently tagged
    ensures r.outcome.Created? ==>
      pub == Some(r.outcome.pub) && prv == Some(r.outcome.prv) && ConsistentPair(r.outcome.alg, r.outcome.prv, r.outcome.pub)
  {
    if pub.None? || prv.None? then Run(Null(NullArgument), [])
    else if FamilyCheckRejects(pub.value, prv.value) then Run(Null(AlgorithmMismatch), [])
    else
      match prv.value
      case RSAPrivateKey(_, _) => Run(Created(RSA, prv.value, pub.value), [])
      case DSAPrivateKey(_, _) => Run(Created(DSA, prv.value, pub.value), [])
      case ECPrivateKey(prvParams, _, _) =>
        if !pub.value.ECPublicKey? then Run(ClassCastException, [])
        else
          var spec := pub.value.params;
          if spec != prvParams then Run(Null(DomainMismatch), [])
          else
            var calls := CurveOfCalls(env.ec, spec);
            if CurveOf(env.ec, spec).None? then Run(Null(UnsupportedCurve), calls)
            else
              var c := CurveOf(env.ec, spec).value;
              var valid := env.ec.validPublicKey(c, pub.value.w);
              var calls := calls + [ValidPublicKey(c, pub.value.w, valid)];
              if !valid then Run(Null(InvalidPublicKey), calls)
              else Run(Created(c, prv.value, pub.value), calls)
      case OtherPrivateKey(_, _) => Run(Null(UnsupportedAlgorithm), [])
  }

  /**
   * createFromKeys with the family check made in both directions: the
   * decision the method's documentation promises ("null if invalid or
   * incompatible keys"). It never throws, and it agrees with FromKeys on
   * every pair whose public key is of a recognised type.
   */
  function FromKeysChecked(env: Env, pub: Option<PublicKey>, prv: Option<PrivateKey>): (r: Run)
    ensures !r.outcome.Throws()
    ensures r.outcome == Null(AlgorithmMismatch) <==>
      pub.Some? && prv.Some? && pub.value.Family() != prv.value.Family()
    ensures r.outcome.Created? ==> r.outcome.pub.Family() == r.outcome.prv.Family()
    ensures pub.Some? && prv.Some? && pub.value.Family() != OtherKeys ==> r == FromKeys(env, pub, prv)
  {
    if pub.Some? && prv.Some? && pub.value.Family() != prv.value.Family() then Run(Null(AlgorithmMismatch), [])
    else FromKeys(env, pub, prv)
  }

  /** createFromKeypair(pair). */
  function FromKeypair(env: Env, pair: Option<KeyPair>): (r: Run)
    ensures pair.None? ==> r == Run(Null(NullArgument), [])
    ensures pair.Some? ==> r == FromKeys(env, pair.value.publicKey, pair.value.privateKey)
  {
    if pair.None? then Run(Null(NullArgument), [])
    else FromKeys(env, pair.value.publicKey, pair.value.privateKey)
  }

  // ---------------------------------------------------------------- the class

  /**
   * A key pair record. The constructor is private to the factories; every
   * factory either returns null or a fresh record whose three fields are set.
   */
  class KeyCreator {
    var prvkey: Option<PrivateKey>
    var pubkey: Option<PublicKey>
    var pktype: Option<AsymmetricAlgorithm>

    /** No field is null: never a partially populated record. */
    ghost predicate Valid()
      reads this
    {
      prvkey.Some? && pubkey.Some? && pktype.Some?
    }

    /** The record holds exactly the tag and keys of a successful outcome. */
    ghost predicate Holds(o: Outcome)
      reads this
    {
      o.Created? && pktype == Some(o.alg) && prvkey == Some(o.prv) && pubkey == Some(o.pub)
    }

    /** The empty constructor: all three fields start out null. */
    constructor ()
      ensures prvkey == None && pubkey == None && pktype == None
    {
      prvkey := None;
      pubkey := None;
      pktype := None;
    }

    /** The try block: the two generate calls, each exception or null giving no keys. */
    static method GenerateKeys(p: Provider, f: KeyFactoryName, alg: AsymmetricAlgorithm,
                               privspec: KeySpec, pubspec: KeySpec, before: seq<Call>)
      returns (prvk: Option<PrivateKey>, pubk: Option<PublicKey>, calls: seq<Call>)
      ensures calls == Generate(p, f, alg, privspec, pubspec, before).calls
      ensures prvk.Some? && pubk.Some? <==> Generate(p, f, alg, privspec, pubspec, before).outcome.Created?
      ensures prvk.Some? && pubk.Some? ==>
        var o := Generate(p, f, alg, privspec, pubspec, before).outcome;
        prvk == Some(o.prv) && pubk == Some(o.pub)
    {
      prvk, pubk := None, None;
      calls := before + [GeneratePrivate(f, privspec)];
      var gp := p.generatePrivate(f, privspec);
      if gp.InvalidKeySpecException? {
        return;
      }
      calls := calls + [GeneratePublic(f, pubspec)];
      var gq := p.generatePublic(f, pubspec);
      if gq.InvalidKeySpecException? {
        return;
      }
      if gp.ReturnedNull? || gq.ReturnedNull? {
        return;
      }
      prvk, pubk := Some(gp.key), Some(gq.key);
    }

    /** createRSAinstance. */
    static method CreateRsaInstance(env: Env, n: Option<Bytes>, e: Option<Bytes>, d: Option<Bytes>)
      returns (kc: KeyCreator?, calls: seq<Call>)
      ensures calls == RsaInstance(env, n, e, d).calls
      ensures kc == null <==> !RsaInstance(env, n, e, d).outcome.Created?
      ensures kc != null ==> fresh(kc) && kc.Valid() && kc.Holds(RsaInstance(env, n, e, d).outcome)
    {
      calls := [];
      if n.None? || e.None? || d.None? || |n.value| == 0 || |e.value| == 0 || |d.value| == 0 {
        return null, calls;
      }
      var available := env.provider.hasKeyFactory(RsaFactory);
      calls := calls + [GetKeyFactory(RsaFactory, available)];
      if !available {
        return null, calls;
      }
      var eint := Signed(e.value);
      var nint := Signed(n.value);
      var dint := Signed(d.value);
      var privspec := RSAPrivateKeySpec(nint, dint);
      var pubspec := RSAPublicKeySpec(nint, eint);
      var prvk, pubk;
      prvk, pubk, calls := GenerateKeys(env.provider, RsaFactory, RSA, privspec, pubspec, calls);
      if prvk.None? || pubk.None? {
        return null, calls;
      }
      kc := new KeyCreator();
      kc.pktype := Some(RSA);
      kc.prvkey := prvk;
      kc.pubkey := pubk;
    }

    /** createDSAinstance. */
    static method CreateDsaInstance(env: Env, p: Option<Bytes>, q: Option<Bytes>, g: Option<Bytes>,
                                    y: Option<Bytes>, x: Option<Bytes>)
      returns (kc: KeyCreator?, calls: seq<Call>)
      ensures calls == DsaInstance(env, p, q, g, y, x).calls
      ensures kc == null <==> !DsaInstance(env, p, q, g, y, x).outcome.Created?
      ensures kc != null ==> fresh(kc) && kc.Valid() && kc.Holds(DsaInstance(env, p, q, g, y, x).outcome)
    {
      calls := [];
      if || p.None? || q.None? || g.None? || y.None? || x.None?
         || |p.value| == 0 || |q.value| == 0 || |g.value| == 0 || |y.value| == 0 || |x.value| == 0 {
        return null, calls;
      }
      var available := env.provider.hasKeyFactory(DsaFactory);
      calls := calls + [GetKeyFactory(DsaFactory, available)];
      if !available {
        return null, calls;
      }
      var pint := Signed(p.value);
      var qint := Signed(q.value);
      var gint := Signed(g.value);
      var yint := Signed(y.value);
      var xint := Signed(x.value);
      var privspec := DSAPrivateKeySpec(xint, pint, qint, gint);
      var pubspec := DSAPublicKeySpec(yint, pint, qint, gint);
      var prvk, pubk;
      prvk, pubk, calls := GenerateKeys(env.provider, DsaFactory, DSA, privspec, pubspec, calls);
      if prvk.None? || pubk.None? {
        return null, calls;
      }
      kc := new KeyCreator();
      kc.pktype := Some(DSA);
      kc.prvkey := prvk;
      kc.pubkey := pubk;
    }

    /** createECinstance; `thrown` reports the IllegalArgumentException of `new ECPublicKeySpec`. */
    static method CreateEcInstance(env: Env, alg: Option<AsymmetricAlgorithm>, q: Option<Bytes>, d: Option<Bytes>)
      returns (kc: KeyCreator?, thrown: bool, calls: seq<Call>)
      ensures calls == EcInstance(env, alg, q, d).calls
      ensures thrown <==> EcInstance(env, alg, q, d).outcome.IllegalArgumentException?
      ensures kc == null <==> !EcInstance(env, alg, q, d).outcome.Created?
      ensures kc != null ==> fresh(kc) && kc.Valid() && kc.Holds(EcInstance(env, alg, q, d).outcome)
    {
      kc, thrown, calls := null, false, [];
      if alg.None? || q.None? || d.None? || |q.value| == 0 || |d.value| == 0 {
        return;
      }
      match alg.value {
        case ECDSA_NISTP256 =>
        case ECDSA_NISTP384 =>
        case ECDSA_NISTP521 =>
        case RSA => return;
        case DSA => return;
      }
      var available := env.provider.hasKeyFactory(EcFactory);
      calls := calls + [GetKeyFactory(EcFactory, available)];
      if !available {
        return;
      }
      var sint := env.ec.octetStringToInteger(d.value);
      calls := calls + [OctetStringToInteger(d.value)];
      var wpoint := env.ec.octetStringToEcPoint(alg.value, q.value);
      calls := calls + [OctetStringToEcPoint(alg.value, q.value)];
      var spec := env.ec.getSpec(alg.value);
      calls := calls + [GetSpec(alg.value)];
      if sint.None? || wpoint.None? || spec.None? {
        return;
      }
      var valid := env.ec.validPublicKey(alg.value, wpoint.value);
      calls := calls + [ValidPublicKey(alg.value, wpoint.value, valid)];
      if !valid {
        return;
      }
      var privspec := ECPrivateKeySpec(sint.value, spec.value);
      if wpoint.value.PointInfinity? {
        // the ECPublicKeySpec constructor refuses the point at infinity
        thrown := true;
        return;
      }
      var pubspec := ECPublicKeySpec(wpoint.value, spec.value);
      var prvk, pubk;
      prvk, pubk, calls := GenerateKeys(env.provider, EcFactory, alg.value, privspec, pubspec, calls);
      if prvk.None? || pubk.None? {
        return;
      }
      kc := new KeyCreator();
      kc.pktype := alg;
      kc.prvkey := prvk;
      kc.pubkey := pubk;
    }

    /** createFromKeys; `thrown` reports the ClassCastException of the unchecked cast. */
    static method CreateFromKeys(env: Env, pubKey: Option<PublicKey>, privKey: Option<PrivateKey>)
      returns (kc: KeyCreator?, thrown: bool, calls: seq<Call>)
      ensures calls == FromKeys(env, pubKey, privKey).calls
      ensures thrown <==> FromKeys(env, pubKey, privKey).outcome.ClassCastException?
      ensures kc == null <==> !FromKeys(env, pubKey, privKey).outcome.Created?
      ensures kc != null ==> fresh(kc) && kc.Valid() && kc.Holds(FromKeys(env, pubKey, privKey).outcome)
    {
      kc, thrown, calls := null, false, [];
      if pubKey.None? || privKey.None? {
        return;
      }
      var pub, prv := pubKey.value, privKey.value;
      if || (pub.RSAPublicKey? && !prv.RSAPrivateKey?)
         || (pub.DSAPublicKey? && !prv.DSAPrivateKey?)
         || (pub.ECPublicKey? && !prv.ECPrivateKey?) {
        return;
      }
      var alg: Option<AsymmetricAlgorithm> := None;
      if prv.RSAPrivateKey? {
        alg := Some(RSA);
      } else if prv.DSAPrivateKey? {
        alg := Some(DSA);
      } else if prv.ECPrivateKey? {
        if !pub.ECPublicKey? {
          thrown := true;
          return;
        }
        var spec := pub.params;
        if spec != prv.params {
          return;
        }
        calls := calls + [GetSpec(ECDSA_NISTP256)];
        if Some(spec) == env.ec.getSpec(ECDSA_NISTP256) {
          alg := Some(ECDSA_NISTP256);
        } else {
          calls := calls + [GetSpec(ECDSA_NISTP384)];
          if Some(spec) == env.ec.getSpec(ECDSA_NISTP384) {
            alg := Some(ECDSA_NISTP384);
          } else {
            calls := calls + [GetSpec(ECDSA_NISTP521)];
            if Some(spec) == env.ec.getSpec(ECDSA_NISTP521) {
              alg := Some(ECDSA_NISTP521);
            } else {
              return;
            }
          }
        }
        var valid := env.ec.validPublicKey(alg.value, pub.w);
        calls := calls + [ValidPublicKey(alg.value, pub.w, valid)];
        if !valid {
          return;
        }
      } else {
        return;
      }
      if alg.None? {
        return;
      }
      kc := new KeyCreator();
      kc.prvkey := privKey;
      kc.pubkey := pubKey;
      kc.pktype := alg;
    }

    /** createFromKeypair. */
    static method CreateFromKeypair(env: Env, pair: Option<KeyPair>)
      returns (kc: KeyCreator?, thrown: bool, calls: seq<Call>)
      ensures calls == FromKeypair(env, pair).calls
      ensures thrown <==> FromKeypair(env, pair).outcome.ClassCastException?
      ensures kc == null <==> !FromKeypair(env, pair).outcome.Created?
      ensures kc != null ==> fresh(kc) && kc.Valid() && kc.Holds(FromKeypair(env, pair).outcome)
    {
      if pair.None? {
        return null, false, [];
      }
      kc, thrown, calls := CreateFromKeys(env, pair.value.publicKey, pair.value.privateKey);
    }

    /** getPublic: the public key's DER encoding, or null without a key or without an encoding. */
    function GetPublic(): (der: Option<Bytes>)
      reads this
      ensures pubkey.None? ==> der.None?
      ensures pubkey.Some? ==> der == pubkey.value.encoded
    {
      if pubkey.None? then None else pubkey.value.encoded
    }

    /** getPrivate: the private key's DER encoding, or null without a key or without an encoding. */
    function GetPrivate(): (der: Option<Bytes>)
      reads this
      ensures prvkey.None? ==> der.None?
      ensures prvkey.Some? ==> der == prvkey.value.encoded
    {
      if prvkey.None? then None else prvkey.value.encoded
    }

    /** getPublicKey: the stored public key, unchanged; never null on a built record. */
    function GetPublicKey(): (k: Option<PublicKey>)
      reads this
      ensures k == pubkey
      ensures Valid() ==> k.Some?
    {
      if pubkey.None? then None else pubkey
    }

    /** getPrivateKey: the stored private key, unchanged; never null on a built record. */
    function GetPrivateKey(): (k: Option<PrivateKey>)
      reads this
      ensures k == prvkey
      ensures Valid() ==> k.Some?
    {
      if prvkey.None? then None else prvkey
    }

    /** getType: the stored algorithm tag; never null on a built record. */
    function GetType(): (t: Option<AsymmetricAlgorithm>)
      reads this
      ensures t == pktype
      ensures Valid() ==> t.Some?
    {
      pktype
    }
  }

}
