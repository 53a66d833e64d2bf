/**
 * What the validations of `Contact` guarantee, stated over the functions
 * that specify them: how often each error is reported, which pairs clash
 * on e-mail uniqueness, and when a record is valid.
 */
module ContactProperties {
  import opened Wrappers
  import opened Text
  import opened Formats
  import opened Luhn
  import opened External
  import opened Contacts

  /** Nothing is reported exactly when every validation passes. */
  lemma {:induction false} ReportedEmptyIffAllPass(vs: seq<Verdict>)
    ensures Reported(vs) == [] <==> forall i :: 0 <= i < |vs| ==> vs[i].ok
  {
    if vs != [] {
      ReportedEmptyIffAllPass(vs[1..]);
      if forall i :: 0 <= i < |vs| ==> vs[i].ok {
        forall i | 0 <= i < |vs[1..]| ensures vs[1..][i].ok {
          assert vs[1..][i] == vs[i + 1];
        }
      }
      if Reported(vs) == [] {
        forall i | 0 <= i < |vs| ensures vs[i].ok {
          if i > 0 { assert vs[i] == vs[1..][i - 1]; }
        }
      }
    }
  }

  /** An error that no validation adds is never reported. */
  lemma {:induction false} ReportedNever(vs: seq<Verdict>, e: Error)
    requires forall i :: 0 <= i < |vs| ==> vs[i].error != e
    ensures multiset(Reported(vs))[e] == 0
  {
    if vs != [] {
      assert forall i :: 0 <= i < |vs[1..]| ==> vs[1..][i] == vs[i + 1];
      ReportedNever(vs[1..], e);
    }
  }

  /** An error that only validation k adds is reported once when k fails and not at all when it passes. */
  lemma {:induction false} ReportedOnce(vs: seq<Verdict>, k: nat, e: Error)
    requires k < |vs| && vs[k].error == e
    requires forall i :: 0 <= i < |vs| && i != k ==> vs[i].error != e
    ensures multiset(Reported(vs))[e] == if vs[k].ok then 0 else 1
  {
    assert forall i :: 0 <= i < |vs[1..]| ==> vs[1..][i] == vs[i + 1];
    if k == 0 {
      ReportedNever(vs[1..], e);
    } else {
      ReportedOnce(vs[1..], k - 1, e);
      assert vs[0].error != e;
    }
  }

  /**
   * `date_format` never raises: an unparsable date of birth is reported
   * exactly once, on the date of birth (not on the phone, whatever the
   * name of the helper that adds it), and a parsable one adds nothing.
   */
  lemma DateCheckAddsOneError(c: ContactFields, taken: Taken, x: Collaborators)
    ensures multiset(ValidationErrors(c, taken, x))[Error(DateOfBirth, DateMessage)]
         == if x.ymdFormat(c.dateOfBirth) then 0 else 1
  {
    ReportedOnce(AllVerdicts(c, taken, x), 12, Error(DateOfBirth, DateMessage));
  }

  /** `add_phone_error` reports nothing on the phone: the date message never appears on that field. */
  lemma DateErrorNotOnPhone(c: ContactFields, taken: Taken, x: Collaborators)
    ensures multiset(ValidationErrors(c, taken, x))[Error(Phone, DateMessage)] == 0
  {
    ReportedNever(AllVerdicts(c, taken, x), Error(Phone, DateMessage));
  }

  /** A card number failing the Luhn check is reported exactly once, on the card; a passing one adds nothing. */
  lemma CardCheckAddsOneError(c: ContactFields, taken: Taken, x: Collaborators)
    ensures multiset(ValidationErrors(c, taken, x))[Error(CreditCard, CardMessage)]
         == if LuhnValid(c.creditCard) then 0 else 1
  {
    ReportedOnce(AllVerdicts(c, taken, x), 13, Error(CreditCard, CardMessage));
  }

  /**
   * The e-mail is taken exactly when a stored contact has the same user
   * id and the same e-mail: the same address under another user id (or
   * under a missing one, when this contact has a user id) does not clash.
   */
  lemma EmailTakenIffSameUser(c: ContactFields, taken: Taken, x: Collaborators)
    ensures Error(Email, TakenMessage) in ValidationErrors(c, taken, x) <==> (c.userId, c.email) in taken
  {
    ReportedOnce(AllVerdicts(c, taken, x), 8, Error(Email, TakenMessage));
  }

  /** Everything a record must satisfy to be valid, check by check. */
  predicate Acceptable(c: ContactFields, taken: Taken, x: Collaborators) {
    && NameFormat(c.name)
    && Present(c.dateOfBirth) && x.ymdFormat(c.dateOfBirth)
    && PhoneFormat(c.phone)
    && Present(c.address)
    && Present(c.creditCard) && LuhnValid(c.creditCard)
    && Present(c.email) && (c.userId, c.email) !in taken && x.emailFormat(c.email)
    && c.userId.Some? && c.userFileId.Some?
  }

  /**
   * A record is valid exactly when every check passes. The presence
   * checks on the name and the phone are implied by their patterns.
   */
  lemma ValidIffAcceptable(c: ContactFields, taken: Taken, x: Collaborators)
    ensures ValidationErrors(c, taken, x) == [] <==> Acceptable(c, taken, x)
  {
    var vs := AllVerdicts(c, taken, x);
    ReportedEmptyIffAllPass(vs);
    if NameFormat(c.name) { NameFormatNotBlank(c.name); }
    if PhoneFormat(c.phone) { PhoneFormatNotBlank(c.phone); }
    if forall i :: 0 <= i < |vs| ==> vs[i].ok {
      assert vs[1].ok && vs[2].ok && vs[4].ok && vs[5].ok && vs[6].ok && vs[8].ok && vs[9].ok;
      assert vs[10].ok && vs[11].ok && vs[12].ok && vs[13].ok && vs[7].ok;
    }
  }

  /**
   * A record that passes every check still passes with its card number
   * replaced by `"18"`, so it is created; `card_numbers` on the created
   * record then fails on the nil slice.
   */
  lemma ShortCardRecordCreatedButUnreadable(c: ContactFields, taken: Taken, x: Collaborators)
    requires Acceptable(c, taken, x)
    ensures ValidationErrors(c.(creditCard := "18"), taken, x) == []
    ensures RoundTrip(x) ==> CardNumbers(Prepared(c.(creditCard := "18"), x), x) == Failure(NilSlice)
  {
    var short := c.(creditCard := "18");
    ShortCardsAccepted();
    assert Acceptable(short, taken, x);
    ValidIffAcceptable(short, taken, x);
    if RoundTrip(x) {
      ShortCardMaskFails(short, x);
    }
  }

  /** Examples of the phone pattern: any mix of the two separators, and nothing without the country code. */
  lemma PhoneExamples()
    ensures PhoneFormat("(+90) 555-123-45-67")
    ensures PhoneFormat("(+90) 555 123 45 67")
    ensures PhoneFormat("(+90)\t555-123 45-67")
    ensures !PhoneFormat("555-123-45-67")
    ensures !PhoneFormat("(+90) 555-123-45-6")
    ensures !PhoneFormat("(+90) 555_123_45_67")
  {
  }
}
