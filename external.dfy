/**
 * The collaborators whose code is not part of this model, passed in as
 * values: the encryption service, the card detector's brand table and two
 * standard-library checks. Their only assumed law, the encryption round
 * trip, is a predicate that the properties needing it take as a
 * precondition.
 */
module External {
  import opened Wrappers

  datatype Collaborators = Collaborators(
    /** `Encryption::EncryptionService.encrypt`. */
    encrypt: string -> string,
    /** `Encryption::EncryptionService.decrypt`; None when the ciphertext cannot be decrypted. */
    decrypt: string -> Option<string>,
    /** `CreditCardValidations::Detector.new(number).brand.to_s`; "" when no brand matches. */
    brand: string -> string,
    /** Whether the string matches `URI::MailTo::EMAIL_REGEXP`. */
    emailFormat: string -> bool,
    /** Whether `Date.strptime(s, "%Y-%m-%d")` yields a date rather than raising. */
    ymdFormat: string -> bool)

  /** Decryption undoes encryption. */
  ghost predicate RoundTrip(x: Collaborators) {
    forall p :: x.decrypt(x.encrypt(p)) == Some(p)
  }
}
