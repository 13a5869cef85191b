/**
 * The classifier of the JOSE code generator: given one row of an IANA
 * registry (sections 7 of RFC 7518 and 8 of RFC 7517), the name of the
 * generated enum that the row belongs to, if any.
 */
module Jose {
  import opened Results
  import opened Text

  /** The "Algorithm Usage Location(s)" column. */
  datatype Usage = Alg | Enc | Jwk

  function UsageName(u: Usage): string
  {
    match u
    case Alg => "alg"
    case Enc => "enc"
    case Jwk => "JWK"
  }

  /** Deserialising the usage column; any other value is not a valid row. */
  function ParseUsage(s: string): Option<Usage>
  {
    match s
    case "alg" => Some(Alg)
    case "enc" => Some(Enc)
    case "JWK" => Some(Jwk)
    case _ => None
  }

  lemma ParseUsageName(u: Usage)
    ensures ParseUsage(UsageName(u)) == Some(u)
  {
  }

  /**
   * One registry row, reduced to the columns the classifier reads: the
   * algorithms registry has a name, usage and reference; the curves
   * registry a name; the other four registries only a value.
   */
  datatype Entry =
    | Algorithm(name: string, usage: Usage, reference: string)
    | Compression(value: string)
    | KeyType(value: string)
    | Curve(name: string)
    | KeyUse(value: string)
    | KeyOperation(value: string)

  const SignatureAlg: string := "JsonWebSignatureAlg"
  const EncryptionAlg: string := "JsonWebEncryptionAlg"
  const EncryptionEnc: string := "JsonWebEncryptionEnc"
  const CompressionAlgorithm: string := "JsonWebEncryptionCompressionAlgorithm"
  const KeyTypeSection: string := "JsonWebKeyType"
  const EcCurve: string := "JsonWebKeyEcEllipticCurve"
  const OkpCurve: string := "JsonWebKeyOkpEllipticCurve"
  const KeyUseSection: string := "JsonWebKeyUse"
  const KeyOperationSection: string := "JsonWebKeyOperation"

  /** `SECTIONS` of the registry the entry comes from. */
  function Sections(e: Entry): seq<string>
  {
    match e
    case Algorithm(_, _, _) => [SignatureAlg, EncryptionAlg, EncryptionEnc]
    case Compression(_) => [CompressionAlgorithm]
    case KeyType(_) => [KeyTypeSection]
    case Curve(_) => [EcCurve, OkpCurve]
    case KeyUse(_) => [KeyUseSection]
    case KeyOperation(_) => [KeyOperationSection]
  }

  const FullySpecifiedDraft: string := "RFC-ietf-jose-fully-specified-algorithms"

  /** A reference naming one of the signature-algorithm specifications. */
  predicate SignatureReference(reference: string)
  {
    Contains(reference, "RFC7518, Section 3")
    || Contains(reference, "RFC8037")
    || Contains(reference, "RFC8812")
    || (Contains(reference, FullySpecifiedDraft) && Contains(reference, "Section 2"))
  }

  /** A reference naming one of the key-management algorithm specifications. */
  predicate EncryptionReference(reference: string)
  {
    Contains(reference, "RFC7518, Section 4")
    || Contains(reference, "WebCryptoAPI")
    || (Contains(reference, FullySpecifiedDraft) && Contains(reference, "Section 3"))
  }

  /** Whether a curve is a NIST or SEC curve, used with key type EC. */
  predicate EcCurveName(name: string)
  {
    StartsWith(name, "P-") || name == "secp256k1"
  }

  /** `EnumEntry::key`: the section an entry is generated into, or none to drop it. */
  function Key(e: Entry): (r: Option<string>)
    ensures r.Some? ==> r.value in Sections(e)
    ensures !e.Algorithm? ==> r.Some?
    ensures e.Algorithm? && e.usage == Jwk ==> r.None?
    ensures e.Algorithm? && e.usage == Enc ==> r == Some(EncryptionEnc)
  {
    match e
    case Algorithm(_, usage, reference) =>
      (match usage
       case Alg =>
         if SignatureReference(reference) then Some(SignatureAlg)
         else if EncryptionReference(reference) then Some(EncryptionAlg)
         else None
       case Enc => Some(EncryptionEnc)
       case Jwk => None)
    case Compression(_) => Some(CompressionAlgorithm)
    case KeyType(_) => Some(KeyTypeSection)
    case Curve(name) => if EcCurveName(name) then Some(EcCurve) else Some(OkpCurve)
    case KeyUse(_) => Some(KeyUseSection)
    case KeyOperation(_) => Some(KeyOperationSection)
  }

  /**
   * An `alg` row is a signature algorithm exactly when its reference names a
   * signature specification, whatever else it names; it is a key-management
   * algorithm exactly when it names a key-management specification and no
   * signature one; otherwise it is dropped.
   */
  lemma AlgClassification(name: string, reference: string)
    ensures Key(Algorithm(name, Alg, reference)) == Some(SignatureAlg)
      <==> SignatureReference(reference)
    ensures Key(Algorithm(name, Alg, reference)) == Some(EncryptionAlg)
      <==> !SignatureReference(reference) && EncryptionReference(reference)
    ensures Key(Algorithm(name, Alg, reference)).None?
      <==> !SignatureReference(reference) && !EncryptionReference(reference)
  {
  }

  /** An elliptic curve is EC exactly when it is a `P-` curve or secp256k1, and OKP otherwise. */
  lemma CurveClassification(name: string)
    ensures Key(Curve(name)) == Some(EcCurve) <==> EcCurveName(name)
    ensures Key(Curve(name)) == Some(OkpCurve) <==> !EcCurveName(name)
  {
  }

  /**
   * Listing more references beside a signature specification never moves a
   * row out of the signature section.
   */
  lemma SignatureStable(name: string, reference: string, before: string, after: string)
    requires Key(Algorithm(name, Alg, reference)) == Some(SignatureAlg)
    ensures Key(Algorithm(name, Alg, before + reference + after)) == Some(SignatureAlg)
  {
    var wider := before + reference + after;
    if Contains(reference, "RFC7518, Section 3") {
      ContainsWithin(reference, "RFC7518, Section 3", before, after);
    } else if Contains(reference, "RFC8037") {
      ContainsWithin(reference, "RFC8037", before, after);
    } else if Contains(reference, "RFC8812") {
      ContainsWithin(reference, "RFC8812", before, after);
    } else {
      ContainsWithin(reference, FullySpecifiedDraft, before, after);
      ContainsWithin(reference, "Section 2", before, after);
    }
  }
}
