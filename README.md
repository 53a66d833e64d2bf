# Contact record: validations, create hooks and masked card read

This project models the `Contact` record of the contact importer
(`app/models/contact.rb`) in Dafny and proves properties of the model.
It covers three parts of the record:

- **Validations.** The record runs a fixed, ordered list of checks.
  - Presence checks on eight attributes.
  - The name pattern `\A[a-zA-Z0-9\-]+\z`.
  - The phone pattern `\A\(\+\d{2}\)\s\d{3}[\- ]\d{3}[\- ]\d{2}[\- ]\d{2}\z`.
  - E-mail presence, uniqueness per user and mailbox format.
  - The `date_format` check.
  - The `card_validation` Luhn check.

  Each failing check adds a (field, message) error to the record's
  `errors` collection instead of raising. The record is valid when
  nothing was added.
- **Create-time preparation.** The two `before_create` hooks run in their
  declared order. `set_franchise` stamps the card brand from the
  plaintext number. `encrypt_credit_card` then replaces the number with
  its ciphertext.
- **Masked read.** `card_numbers` returns ten `*` characters followed by
  the last four characters of the decrypted card value.

## Layout

- `wrappers.dfy` (`Wrappers`): `Option` and `Result`.
- `text.dfy` (`Text`): the character classes.
  - Ruby's `\d` and `\s`.
  - The white space that makes a string blank, which is what `presence: true` rejects.
- `formats.dfy` (`Formats`): the name and phone patterns.
  - Each is written as a character-by-character predicate.
  - The phone pattern also has a small anchored-regex reading, proved to accept exactly the same strings.
- `luhn.dfy` (`Luhn`): the Luhn checksum of ISO/IEC 7812-1 Annex B.
  - It is computed right to left, two digits at a time.
  - It is proved equal to a positional reference sum.
- `external.dfy` (`External`): the collaborators the record calls but does not define.
  - The encryption service's `encrypt` and `decrypt`.
  - The card detector's `brand`.
  - `URI::MailTo::EMAIL_REGEXP`.
  - `Date.strptime(_, "%Y-%m-%d")`.

  They are function-valued fields of one `Collaborators` value that every operation calling a collaborator takes as a parameter. The encryption round trip `decrypt(encrypt(p)) == p` is the predicate `RoundTrip`. Lemmas that need it take it as a precondition.
- `contact.dfy` (`Contacts`): the core.
  - The attributes and the validation verdicts in declaration order.
  - The hooks and the masked read, as functions.
  - The class `Contact`, whose methods update its `errors`, `franchise`, `credit_card` and `persisted` state in place.
- `contact_properties.dfy` (`ContactProperties`): what the validations guarantee.
  - How often each error is reported.
  - When e-mails clash.
  - When a record is valid.

## Model

| member | source | states |
|---|---|---|
| `Formats.NameFormatIffNameChars` | app/models/contact.rb:8 | A name matches the name pattern iff it is non-empty and every character is an ASCII letter, an ASCII digit or `-`. |
| `Formats.NameFormatNotBlank` | app/models/contact.rb:7-8 | A name matching the pattern is never blank, so it also passes the presence check on line 7. |
| `Formats.MatchesIffPositionwise` | app/models/contact.rb:12 | An anchored pattern of single-character classes matches iff the string has the pattern's length and each character is in its class. |
| `Formats.PhoneFormatIsRegex` | app/models/contact.rb:11-14 | The position-by-position phone predicate accepts exactly the strings the phone pattern matches. A passing phone has 19 characters: `(+`, 2 digits, `)`, one `\s` character, 3 digits, a separator, 3 digits, a separator, 2 digits, a separator, 2 digits. |
| `Formats.PhonePositionsIndependent` | app/models/contact.rb:11-14 | Replacing one character of a valid phone by another character of the same class keeps it valid. Each separator is independently `-` or a space. The character after `)` may be any `\s` character, not just a space. |
| `Formats.PhoneFormatNotBlank` | app/models/contact.rb:10-14 | A phone matching the pattern is never blank, so it also passes the presence check on line 10. |
| `Luhn.LuhnSumIsPositional` | app/models/contact.rb:55-58 | The right-to-left checksum equals the sum in which every digit at an odd distance from the right end is doubled, with 9 taken off a doubled value above 9. |
| `Luhn.SingleDigitChangeFailsLuhn` | app/models/contact.rb:55-58 | Two digit strings that differ in exactly one digit have different checksums modulo 10, so at most one of them passes the card check. |
| `Contacts.DeclaredVerdicts` | app/models/contact.rb:7-21 | The `validates` declarations in declared order: 12 checks, each paired with the field and message it reports. |
| `Contacts.AllVerdicts` | app/models/contact.rb:7-24 | The full validation run: the 12 declarations, then `date_format`, then `card_validation`, 14 checks in all. |
| `Contacts.ReportedConcat` | app/models/contact.rb:7-24 | Running two lists of checks in sequence reports the first list's errors, then the second's. |
| `Contacts.ValidationOrder` | app/models/contact.rb:7-24 | `valid?` reports the errors of the declarations first, then the date error, then the card error. |
| `Contacts.Prepared` | app/models/contact.rb:69-75 | After the hooks, in their declared order (lines 26-27): the brand is that of the plaintext card number, and the card number is the ciphertext of that same plaintext. Every other attribute is unchanged. |
| `Contacts.CardNumbers` | app/models/contact.rb:29-31 | It fails with a decryption error iff decryption fails. It fails with a nil slice iff the decrypted value has fewer than 4 characters. Otherwise it has 14 characters: ten `*`, then the last 4 characters of the decrypted value. |
| `Contacts.PreparedCardMasks` | app/models/contact.rb:29-31 | If the encryption round-trips, `card_numbers` on a prepared record is ten `*` followed by the last 4 characters of the original plaintext card number. |
| `Contacts.ShortCardMaskFails` | app/models/contact.rb:29-31 | If the encryption round-trips and the plaintext card number is shorter than 4 characters, `card_numbers` on a prepared record fails on the nil slice. |
| `Contacts.ShortCardsAccepted` | app/models/contact.rb:16 | The one-digit card `"0"` and the two-digit card `"18"` pass both the presence check and the Luhn check. |
| `Contacts.Contact.constructor` | app/models/contact.rb:3 | A new record holds the given attributes, has no errors and is not stored. |
| `Contacts.Contact.AddPhoneError` | app/models/contact.rb:61-63 | Adds exactly one error, keyed on the date of birth with the date message. |
| `Contacts.Contact.AddCardError` | app/models/contact.rb:65-67 | Adds exactly one error, keyed on the card number with the card message. |
| `Contacts.Contact.DateFormat` | app/models/contact.rb:35-39 | Adds the date error iff the date of birth does not parse as `%Y-%m-%d`, and nothing otherwise. |
| `Contacts.Contact.CardValidation` | app/models/contact.rb:55-59 | Adds the card error iff the card number fails the Luhn check, and nothing otherwise. |
| `Contacts.Contact.Validate` | app/models/contact.rb:7-24 | Replaces the errors with exactly those of the full validation run on the current attributes, whatever errors were there before. Returns valid iff there are none. |
| `Contacts.Contact.SetFranchise` | app/models/contact.rb:69-71 | The franchise becomes the brand of the current card number. |
| `Contacts.Contact.EncryptCreditCard` | app/models/contact.rb:73-75 | The card number becomes the ciphertext of its previous value. |
| `Contacts.Contact.BeforeCreate` | app/models/contact.rb:26-27 | The hooks in declared order. The attributes become `Prepared` of the previous attributes, and only the franchise and card number fields may change. |
| `Contacts.Contact.Create` | app/models/contact.rb:26-27 | The errors are those of validating the original attributes. The record is stored iff there are none. A stored record holds the prepared attributes. A rejected record keeps every attribute, its plaintext card number included. |
| `ContactProperties.ReportedEmptyIffAllPass` | app/models/contact.rb:7-24 | A run of checks reports nothing iff every check passes. |
| `ContactProperties.ReportedNever` | app/models/contact.rb:61-67 | An error that no check adds never appears. |
| `ContactProperties.ReportedOnce` | app/models/contact.rb:61-67 | An error that only check k adds appears once if k fails and not at all if it passes. |
| `ContactProperties.DateCheckAddsOneError` | app/models/contact.rb:35-49 | Validation never raises on the date of birth. An unparsable date of birth is reported exactly once, keyed on `date_of_birth`. A parsable one adds no date error. |
| `ContactProperties.DateErrorNotOnPhone` | app/models/contact.rb:61-63 | Although the helper is named `add_phone_error`, the date message is never reported on the phone. |
| `ContactProperties.CardCheckAddsOneError` | app/models/contact.rb:55-58 | A card number failing the Luhn check is reported exactly once, keyed on `credit_card`. A passing one adds no card error. |
| `ContactProperties.EmailTakenIffSameUser` | app/models/contact.rb:18 | The e-mail is reported as taken iff a stored contact has the same (user id, e-mail) pair. The same e-mail under a different user id does not clash. |
| `ContactProperties.ValidIffAcceptable` | app/models/contact.rb:7-24 | A record is valid iff all of these hold: the name matches its pattern; the date of birth is present and parses; the phone matches its pattern; the address is present; the card number is present and passes Luhn; the e-mail is present, untaken and well formed; both ids are present. |
| `ContactProperties.ShortCardRecordCreatedButUnreadable` | app/models/contact.rb:16-31 | Any record that passes every check also passes with its card number replaced by `"18"`, so `create` stores it. If the encryption round-trips, `card_numbers` on that stored record fails on the nil slice. |
| `ContactProperties.PhoneExamples` | app/models/contact.rb:11-14 | `(+90) 555-123-45-67`, `(+90) 555 123 45 67` and a tab after `)` with mixed separators are accepted. A phone without the country code, one digit short, or with `_` separators is rejected. |

## Left out

- Persistence and associations are left out: the `belongs_to` declarations (lines 4-5), their implicit "must exist" validations, and the database insert. Storing is the `persisted` flag.
- Uniqueness is checked against a set of the stored (user id, e-mail) pairs passed in as `Taken`, not by a query.
  - Two concurrent creates can both pass this check. The model does not capture that race.
  - The model assumes a case-sensitive collation: e-mails are compared by exact string equality. Line 18 sets no `case_sensitive:` option, so the comparison follows the column's database collation. Under a case-insensitive collation, `A@x.com` and `a@x.com` for the same user would clash, and the model does not capture that.
- `Encryption::EncryptionService` is not part of this model. `encrypt` and `decrypt` are parameters, and a decryption failure is the `DecryptionError` result. The round trip is a precondition of the lemmas that need it.
- `CreditCardValidations::Detector` is not part of this model.
  - `brand` is a parameter.
  - `valid_luhn?` is taken to be the ISO/IEC 7812-1 Annex B Luhn check.
  - A string holding anything but ASCII digits is taken to fail that check.
- `URI::MailTo::EMAIL_REGEXP` is a parameter (`emailFormat`), and so is `Date.strptime(_, "%Y-%m-%d")` (`ymdFormat`).
  - `strptime` is lenient about widths, so no fixed digit shape is claimed.
  - The date message mentions `Y/M/D`, but the code tries only the `-` form. The model keeps the code's behaviour and the message text as written.
- Attribute type casting is not modelled.
  - The date of birth is its text.
  - A missing string attribute is the empty string, as `nil.to_s` and `nil.blank?` treat it. This loses the distinction between NULL and `''` in the uniqueness query.
  - A missing id is `None`.
- `Contacts.CardNumbers`: the failures of `card_numbers` are `Failure` results rather than raised exceptions: a `TypeError` on the nil slice, or an error from decryption.
- Updates of stored records are not modelled. They would re-run the validations on the ciphertext card number. Only validation and creation of a new record are.
