/**
 * The deal record fetched from the CRM and the in-place enrichment that
 * `processDeal` performs on it before the notifications are rendered.
 */
module Deals {
  import opened Common
  import Phone
  import Names

  /** One entry of a person's `phone` or `email` list; only `value` is read. */
  datatype Contact = Contact(value: string, primary: bool)

  /** The person linked to a deal (the deal's `person_id` object). */
  datatype Person = Person(name: string, phones: seq<Contact>, emails: seq<Contact>)

  /** The fields of a deal as the CRM returned them, before any enrichment. */
  datatype DealRecord = DealRecord(id: nat, rottenTime: Option<int>, person: Option<Person>, ccEmail: string)

  /**
   * Why enrichment stopped: the property access that throws a TypeError in the
   * source when the person is missing, or when its phone or email list is empty.
   */
  datatype EnrichError = NoPerson | NoPhone | NoEmail

  datatype EnrichOutcome = Enriched | Failed(error: EnrichError)

  /**
   * A deal object. The fetched fields are those the model reads; `rottenTime`
   * is the already-parsed `rotten_time` (None when it is null or does not
   * parse). The three derived fields start out absent and are written by `Enrich`.
   */
  class Deal {
    var id: nat
    var rottenTime: Option<int>
    var person: Option<Person>
    var ccEmail: string
    var firstName: Option<string>
    var phoneNumber: Option<string>
    var email: Option<string>

    /** A deal as it arrives from the CRM's list endpoint. */
    constructor (r: DealRecord)
      ensures Fetched() == r
      ensures firstName == None && phoneNumber == None && email == None
    {
      id := r.id;
      rottenTime := r.rottenTime;
      person := r.person;
      ccEmail := r.ccEmail;
      firstName, phoneNumber, email := None, None, None;
    }

    /** The fetched fields, which nothing in the model writes after construction. */
    function Fetched(): (r: DealRecord)
      reads this
    {
      DealRecord(id, rottenTime, person, ccEmail)
    }

    /**
     * Lines 65-68 of `processDeal`: set the greeting name, the normalised first
     * phone number and the first email address, in that order. A missing person
     * or an empty phone or email list stops at the failing line with the
     * earlier assignments already made, as the thrown TypeError does.
     */
    method Enrich() returns (outcome: EnrichOutcome)
      modifies this`firstName, this`phoneNumber, this`email
      ensures Fetched() == old(Fetched())
      ensures outcome == Enriched <==> Enrichable(Fetched())
      ensures person.None? ==>
                outcome == Failed(NoPerson) && unchanged(this`firstName, this`phoneNumber, this`email)
      ensures person.Some? ==> firstName == Some(Names.FirstName(person.value.name))
      ensures person.Some? && |person.value.phones| == 0 ==>
                outcome == Failed(NoPhone) && unchanged(this`phoneNumber, this`email)
      ensures person.Some? && |person.value.phones| > 0 ==>
                phoneNumber == Some(Phone.FormatNumberForAWS(person.value.phones[0].value))
      ensures person.Some? && |person.value.phones| > 0 && |person.value.emails| == 0 ==>
                outcome == Failed(NoEmail) && unchanged(this`email)
      ensures person.Some? && |person.value.phones| > 0 && |person.value.emails| > 0 ==>
                outcome == Enriched && email == Some(person.value.emails[0].value)
    {
      if person.None? {
        return Failed(NoPerson);
      }
      var p := person.value;
      firstName := Some(Names.FirstName(p.name));
      if |p.phones| == 0 {
        return Failed(NoPhone);
      }
      phoneNumber := Some(Phone.FormatNumberForAWS(p.phones[0].value));
      if |p.emails| == 0 {
        return Failed(NoEmail);
      }
      email := Some(p.emails[0].value);
      outcome := Enriched;
    }
  }

  /** Enrichment succeeds exactly when the person is present with a phone and an email. */
  predicate Enrichable(r: DealRecord) {
    r.person.Some? && |r.person.value.phones| > 0 && |r.person.value.emails| > 0
  }
}
