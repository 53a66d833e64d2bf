/**
 * The `Contact` record: its validations, which collect (field, message)
 * errors instead of raising, the two create hooks that stamp the card
 * brand and then encrypt the card number, and the masked card read.
 */
module Contacts {
  import opened Wrappers
  import opened Text
  import opened Formats
  import opened Luhn
  import opened External

  datatype Field = Name | DateOfBirth | Phone | Address | CreditCard | Email | UserId | UserFileId

  /** One entry of the record's error collection. */
  datatype Error = Error(field: Field, message: string)

  const BlankMessage := "can't be blank"
  const NameMessage := "must be alphanumeric or with '-'"
  const PhoneMessage := "format must be (+00) 000 000 00 00 or (+00) 000-000-00-00"
  const TakenMessage := "has already been taken"
  const InvalidMessage := "is invalid"
  const DateMessage := "format must be 'Y-M-D' or 'Y/M/D."
  const CardMessage := "please enter a valid card number."

  /**
   * The attributes of a contact. A missing string attribute is the empty
   * string (`nil.to_s`); `dateOfBirth` is the text of the date attribute.
   */
  datatype ContactFields = ContactFields(
    name: string,
    dateOfBirth: string,
    phone: string,
    address: string,
    creditCard: string,
    email: string,
    userId: Option<int>,
    userFileId: Option<int>,
    franchise: string)

  /** The (user_id, email) pairs of the contacts already stored. */
  type Taken = set<(Option<int>, string)>

  /** The verdict of one validation: whether it passed, and the error it adds when it did not. */
  datatype Verdict = Verdict(ok: bool, error: Error)

  /** `errors.add` for a failing verdict, nothing for a passing one. */
  function Check(v: Verdict): (r: seq<Error>)
    ensures r == [] <==> v.ok
    ensures !v.ok ==> r == [v.error]
  {
    if v.ok then [] else [v.error]
  }

  /** The errors that a run of validations adds, one per failing verdict, in order. */
  function Reported(vs: seq<Verdict>): (errs: seq<Error>) {
    if vs == [] then [] else Check(vs[0]) + Reported(vs[1..])
  }

  /**
   * The `validates` declarations, in the order they are declared. A
   * missing user id is its own uniqueness scope (`user_id IS NULL`).
   */
  function DeclaredVerdicts(c: ContactFields, taken: Taken, x: Collaborators): (r: seq<Verdict>)
    ensures |r| == 12
  {
    [ Verdict(Present(c.name), Error(Name, BlankMessage)),
      Verdict(NameFormat(c.name), Error(Name, NameMessage)),
      Verdict(Present(c.dateOfBirth), Error(DateOfBirth, BlankMessage)),
      Verdict(Present(c.phone), Error(Phone, BlankMessage)),
      Verdict(PhoneFormat(c.phone), Error(Phone, PhoneMessage)),
      Verdict(Present(c.address), Error(Address, BlankMessage)),
      Verdict(Present(c.creditCard), Error(CreditCard, BlankMessage)),
      Verdict(Present(c.email), Error(Email, BlankMessage)),
      Verdict((c.userId, c.email) !in taken, Error(Email, TakenMessage)),
      Verdict(x.emailFormat(c.email), Error(Email, InvalidMessage)),
      Verdict(c.userId.Some?, Error(UserId, BlankMessage)),
      Verdict(c.userFileId.Some?, Error(UserFileId, BlankMessage)) ]
  }

  /** `date_format`: the date of birth must parse as `%Y-%m-%d`; the error goes on the date of birth. */
  function DateVerdict(c: ContactFields, x: Collaborators): (v: Verdict) {
    Verdict(x.ymdFormat(c.dateOfBirth), Error(DateOfBirth, DateMessage))
  }

  /** `card_validation`: the card number must pass the Luhn check. */
  function CardVerdict(c: ContactFields): (v: Verdict) {
    Verdict(LuhnValid(c.creditCard), Error(CreditCard, CardMessage))
  }

  /** Every validation `valid?` runs, in order: the declarations, then the two custom methods. */
  function AllVerdicts(c: ContactFields, taken: Taken, x: Collaborators): (r: seq<Verdict>)
    ensures |r| == 14
  {
    DeclaredVerdicts(c, taken, x) + [DateVerdict(c, x), CardVerdict(c)]
  }

  /** Every error `valid?` collects, in the order the checks run. */
  function ValidationErrors(c: ContactFields, taken: Taken, x: Collaborators): (errs: seq<Error>) {
    Reported(AllVerdicts(c, taken, x))
  }

  /** Running two lists of validations one after the other reports the errors of both, in order. */
  lemma {:induction false} ReportedConcat(a: seq<Verdict>, b: seq<Verdict>)
    ensures Reported(a + b) == Reported(a) + Reported(b)
  {
    if a == [] {
      assert a + b == b;
    } else {
      assert (a + b)[0] == a[0] && (a + b)[1..] == a[1..] + b;
      ReportedConcat(a[1..], b);
    }
  }

  /** `valid?` reports the declared validations' errors first, then `date_format`'s, then `card_validation`'s. */
  lemma ValidationOrder(c: ContactFields, taken: Taken, x: Collaborators)
    ensures ValidationErrors(c, taken, x)
         == Reported(DeclaredVerdicts(c, taken, x)) + Check(DateVerdict(c, x)) + Check(CardVerdict(c))
  {
    var custom := [DateVerdict(c, x), CardVerdict(c)];
    assert custom[1..] == [CardVerdict(c)] && custom[1..][1..] == [];
    assert Reported(custom[1..]) == Check(CardVerdict(c)) + Reported([]);
    assert Reported(custom) == Check(DateVerdict(c, x)) + Check(CardVerdict(c));
    ReportedConcat(DeclaredVerdicts(c, taken, x), custom);
  }

  /**
   * The before_create hooks in their declared order: first the brand is
   * taken from the plaintext card number, then the card number is
   * replaced by its ciphertext.
   */
  function Prepared(c: ContactFields, x: Collaborators): (p: ContactFields)
    ensures p.franchise == x.brand(c.creditCard)
    ensures p.creditCard == x.encrypt(c.creditCard)
    ensures p.(franchise := c.franchise, creditCard := c.creditCard) == c
  {
    var stamped := c.(franchise := x.brand(c.creditCard));
    stamped.(creditCard := x.encrypt(stamped.creditCard))
  }

  /** `"*" * n` */
  function Stars(n: nat): (s: string)
    ensures |s| == n && forall i :: 0 <= i < n ==> s[i] == '*'
  {
    if n == 0 then "" else "*" + Stars(n - 1)
  }

  /** Ruby's `s[-n..]`: the last n characters, or nil when s is shorter than n. */
  function LastChars(s: string, n: nat): (r: Option<string>)
    ensures r.Some? <==> |s| >= n
    ensures r.Some? ==> |r.value| == n && s == s[..|s| - n] + r.value
  {
    if |s| >= n then Some(s[|s| - n..]) else None
  }

  /** Why `card_numbers` raises: the ciphertext does not decrypt, or the slice is nil. */
  datatype ReadError = DecryptionError | NilSlice

  /**
   * `card_numbers`: ten `*` followed by the last four characters of the
   * decrypted card number; the full plaintext never appears.
   */
  function CardNumbers(c: ContactFields, x: Collaborators): (r: Result<string, ReadError>)
    ensures x.decrypt(c.creditCard).None? <==> r == Failure(DecryptionError)
    ensures r == Failure(NilSlice) <==> x.decrypt(c.creditCard).Some? && |x.decrypt(c.creditCard).value| < 4
    ensures r.Success? ==>
      var plain := x.decrypt(c.creditCard).value;
      && |r.value| == 14
      && (forall i :: 0 <= i < 10 ==> r.value[i] == '*')
      && r.value[10..] == plain[|plain| - 4..]
  {
    match x.decrypt(c.creditCard)
    case None => Failure(DecryptionError)
    case Some(plain) =>
      match LastChars(plain, 4)
      case None => Failure(NilSlice)
      case Some(tail) => Success(Stars(10) + tail)
  }

  /**
   * On a record created through the hooks, `card_numbers` shows the last
   * four characters of the plaintext card number the record was given.
   */
  lemma PreparedCardMasks(c: ContactFields, x: Collaborators)
    requires RoundTrip(x) && |c.creditCard| >= 4
    ensures CardNumbers(Prepared(c, x), x) == Success(Stars(10) + c.creditCard[|c.creditCard| - 4..])
  {
  }

  /**
   * On a record whose plaintext card number is shorter than four
   * characters, `card_numbers` fails: the slice of the decrypted value is
   * nil.
   */
  lemma ShortCardMaskFails(c: ContactFields, x: Collaborators)
    requires RoundTrip(x) && |c.creditCard| < 4
    ensures CardNumbers(Prepared(c, x), x) == Failure(NilSlice)
  {
  }

  /** Card numbers that short pass both card validations: `"0"` and `"18"` are present and pass the Luhn check. */
  lemma ShortCardsAccepted()
    ensures Present("0") && LuhnValid("0")
    ensures Present("18") && LuhnValid("18")
  {
    assert !IsBlankChar("0"[0]) && !IsBlankChar("18"[0]);
    assert LuhnSum("18") == LuhnSum("") + Doubled(1) + 8;
  }

  /** A contact record. Validation fills `errors`; a successful create runs the two hooks. */
  class Contact {
    var name: string
    var dateOfBirth: string
    var phone: string
    var address: string
    var creditCard: string
    var email: string
    var userId: Option<int>
    var userFileId: Option<int>
    var franchise: string
    var errors: seq<Error>
    var persisted: bool

    function Fields(): ContactFields
      reads this`name, this`dateOfBirth, this`phone, this`address, this`creditCard
      reads this`email, this`userId, this`userFileId, this`franchise
    {
      ContactFields(name, dateOfBirth, phone, address, creditCard, email, userId, userFileId, franchise)
    }

    /** A new record, not yet validated or stored. */
    constructor (c: ContactFields)
      ensures Fields() == c && errors == [] && !persisted
    {
      name, dateOfBirth, phone, address := c.name, c.dateOfBirth, c.phone, c.address;
      creditCard, email, userId, userFileId := c.creditCard, c.email, c.userId, c.userFileId;
      franchise := c.franchise;
      errors, persisted := [], false;
    }

    /** `add_phone_error`: despite its name, it reports on the date of birth. */
    method AddPhoneError()
      modifies this`errors
      ensures errors == old(errors) + [Error(DateOfBirth, DateMessage)]
    {
      errors := errors + [Error(DateOfBirth, DateMessage)];
    }

    method AddCardError()
      modifies this`errors
      ensures errors == old(errors) + [Error(CreditCard, CardMessage)]
    {
      errors := errors + [Error(CreditCard, CardMessage)];
    }

    method DateFormat(x: Collaborators)
      modifies this`errors
      ensures errors == old(errors) + Check(DateVerdict(Fields(), x))
    {
      if !x.ymdFormat(dateOfBirth) {
        AddPhoneError();
      }
    }

    method CardValidation()
      modifies this`errors
      ensures errors == old(errors) + Check(CardVerdict(Fields()))
    {
      if !LuhnValid(creditCard) {
        AddCardError();
      }
    }

    /**
     * `valid?`: clears the errors, runs the declared validations, then
     * `date_format` and `card_validation`; valid when nothing was reported.
     */
    method Validate(taken: Taken, x: Collaborators) returns (valid: bool)
      modifies this`errors
      ensures errors == ValidationErrors(Fields(), taken, x)
      ensures valid <==> errors == []
    {
      var c := Fields();
      errors := [];
      errors := errors + Reported(DeclaredVerdicts(c, taken, x));
      DateFormat(x);
      CardValidation();
      ValidationOrder(c, taken, x);
      valid := errors == [];
    }

    /** `set_franchise` */
    method SetFranchise(x: Collaborators)
      modifies this`franchise
      ensures franchise == x.brand(creditCard)
    {
      franchise := x.brand(creditCard);
    }

    /** `encrypt_credit_card` */
    method EncryptCreditCard(x: Collaborators)
      modifies this`creditCard
      ensures creditCard == x.encrypt(old(creditCard))
    {
      creditCard := x.encrypt(creditCard);
    }

    /** The before_create chain: `set_franchise`, then `encrypt_credit_card`. */
    method BeforeCreate(x: Collaborators)
      modifies this`franchise, this`creditCard
      ensures Fields() == Prepared(old(Fields()), x)
    {
      SetFranchise(x);
      EncryptCreditCard(x);
    }

    /**
     * Creating a new record: validate; only when nothing was reported,
     * run the before_create hooks and store the record. A rejected record
     * keeps every attribute, its plaintext card number included.
     */
    method Create(taken: Taken, x: Collaborators) returns (created: bool)
      requires !persisted
      modifies this
      ensures errors == ValidationErrors(old(Fields()), taken, x)
      ensures created <==> errors == []
      ensures persisted == created
      ensures Fields() == if created then Prepared(old(Fields()), x) else old(Fields())
    {
      ghost var before := Fields();
      created := Validate(taken, x);
      if created {
        BeforeCreate(x);
        persisted := true;
        assert Fields() == Prepared(before, x);
      }
    }
  }
}
