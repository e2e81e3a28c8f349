/**
 * Cheques: the canonical message a cheque's signature covers and the
 * abstract signature check.  A signature is modelled by who produced it and
 * over which message; no cryptography is modelled.
 */
module Cheques {

  /** An account identity (an address): the issuer, a beneficiary, a recipient or the vault itself. */
  type Address = nat

  /**
   * The fields an issuer signs for one cheque: the vault it is drawn on, the
   * beneficiary entitled to it, the recipient of the value, and the
   * cumulative amount the beneficiary may have redeemed in total.
   */
  datatype ChequeMessage = ChequeMessage(
    vault: Address,
    beneficiary: Address,
    recipient: Address,
    cumulativePayout: nat)

  /** A signature, abstracted to its signer and the message it was produced over. */
  datatype Signature = Signature(signer: Address, message: ChequeMessage)

  /** The canonical message for a cheque; distinct field tuples give distinct messages. */
  function Canonical(vault: Address, beneficiary: Address, recipient: Address, cumulativePayout: nat): ChequeMessage
  {
    ChequeMessage(vault, beneficiary, recipient, cumulativePayout)
  }

  /** What the off-line signing tool produces when `signer` signs `m`. */
  function Sign(signer: Address, m: ChequeMessage): Signature
  {
    Signature(signer, m)
  }

  /**
   * The signature check of a cash call: `sig` was made by `issuer` over the
   * canonical message built from the call's own parameters, with the caller
   * in the beneficiary field.
   */
  predicate IssuerSigned(issuer: Address, vault: Address, beneficiary: Address, recipient: Address,
                         cumulativePayout: nat, sig: Signature)
  {
    sig.signer == issuer && sig.message == Canonical(vault, beneficiary, recipient, cumulativePayout)
  }

  /** The canonical encoding is injective: two cheques with one message agree on every field. */
  lemma CanonicalInjective(v: Address, b: Address, r: Address, c: nat,
                           v': Address, b': Address, r': Address, c': nat)
    requires Canonical(v, b, r, c) == Canonical(v', b', r', c')
    ensures v == v' && b == b' && r == r' && c == c'
  {
  }

  /**
   * Signature binding: an issuer signature verifies for exactly one
   * (vault, beneficiary, recipient, amount) tuple, and a signature made by
   * anyone else never verifies.
   */
  lemma SignatureBinding(issuer: Address, sig: Signature,
                         v: Address, b: Address, r: Address, c: nat,
                         v': Address, b': Address, r': Address, c': nat)
    requires IssuerSigned(issuer, v, b, r, c, sig)
    ensures IssuerSigned(issuer, v', b', r', c', sig) <==> (v, b, r, c) == (v', b', r', c')
  {
  }

  /** Only the issuer's own signatures can verify. */
  lemma ForeignSignerRejected(issuer: Address, signer: Address, m: ChequeMessage,
                              v: Address, b: Address, r: Address, c: nat)
    requires signer != issuer
    ensures !IssuerSigned(issuer, v, b, r, c, Sign(signer, m))
  {
  }
}
