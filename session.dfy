/**
 * The stateful part of the survey app: the response file, the list of
 * submissions kept for the current session and the "thank you" flag, with the
 * submit handler, the save step, the reset button and the prize draw.
 */
module SurveyApp {
  import opened Wrappers
  import opened Survey

  /** What pressing the submit button ends in. */
  datatype SubmitOutcome =
    | Rejected(reason: InputError)
    | Duplicate(conflict: ContactCheck)
    | Accepted
  {
    /** The message shown for the outcome; a duplicate shows the message the
        contact check returned. */
    function Message(): (m: string)
      ensures Rejected? ==> m == InputErrorMessage(reason)
      ensures Duplicate? ==> m == ContactCheckMessage(conflict)
      ensures !(Duplicate? && conflict == Available) ==> m != ""
    {
      match this
      case Rejected(e) => InputErrorMessage(e)
      case Duplicate(c) => ContactCheckMessage(c)
      case Accepted => "Bedankt voor je deelname! Je maakt nu kans op het wellnesspakket."
    }
  }

  /** The length of each outcome's message. */
  function MessageLength(o: SubmitOutcome): nat {
    match o
    case Rejected(MissingContact) => 53
    case Rejected(InvalidEmail) => 42
    case Rejected(InvalidPhone) => 62
    case Duplicate(Available) => 0
    case Duplicate(DuplicateEmail) => 58
    case Duplicate(DuplicateWhatsApp) => 62
    case Accepted => 65
  }

  lemma MessageHasLength(o: SubmitOutcome)
    ensures |o.Message()| == MessageLength(o)
  {
  }

  /** Every outcome the submit button can end in shows its own message, so the
      attendee can tell the reasons apart. */
  lemma MessagesDistinguishOutcomes(a: SubmitOutcome, b: SubmitOutcome)
    requires !(a.Duplicate? && a.conflict == Available)
    requires !(b.Duplicate? && b.conflict == Available)
    requires a != b
    ensures a.Message() != b.Message()
  {
    MessageHasLength(a);
    MessageHasLength(b);
    if MessageLength(a) == MessageLength(b) {
      SameLengthPair(a, b);
      PhoneAndWhatsAppMessagesDiffer();
    }
  }

  /** Only the phone-format error and the WhatsApp duplicate share a length. */
  lemma SameLengthPair(a: SubmitOutcome, b: SubmitOutcome)
    requires !(a.Duplicate? && a.conflict == Available)
    requires !(b.Duplicate? && b.conflict == Available)
    requires a != b && MessageLength(a) == MessageLength(b)
    ensures {a, b} == {Rejected(InvalidPhone), Duplicate(DuplicateWhatsApp)}
  {
  }

  lemma PhoneAndWhatsAppMessagesDiffer()
    ensures Rejected(InvalidPhone).Message() != Duplicate(DuplicateWhatsApp).Message()
  {
    assert InputErrorMessage(InvalidPhone) != ContactCheckMessage(DuplicateWhatsApp);
  }

  class Session {
    /** The response file: `None` until the first response creates it. */
    var store: Option<seq<Row>>
    /** The records saved during this session; the draw reads only these. */
    var submissions: seq<Record>
    var showThankYou: bool

    /** Every record this session saved is among the stored rows. */
    ghost predicate Valid()
      reads this
    {
      forall s :: s in submissions ==> store.Some? && s in store.value
    }

    /** A fresh session over whatever response file already exists. */
    constructor (existing: Option<seq<Row>>)
      ensures Valid()
      ensures store == existing && submissions == [] && !showThankYou
    {
      store := existing;
      submissions := [];
      showThankYou := false;
    }

    /** Saves `data` unless its email or WhatsApp number is already stored. */
    method SaveResponse(data: Record) returns (saved: bool)
      requires Valid()
      modifies this
      ensures Valid()
      ensures saved <==> CheckExistingContact(old(store), data.email, data.whatsapp) == Available
      ensures !saved ==>
        store == old(store) && submissions == old(submissions) && showThankYou == old(showThankYou)
      ensures saved ==>
        && store == Some(Appended(old(store), data))
        && submissions == old(submissions) + [data]
        && showThankYou
      ensures (old(store).Some? ==> UniqueContacts(old(store).value)) ==>
        store.Some? ==> UniqueContacts(store.value)
    {
      var check := CheckExistingContact(store, data.email, data.whatsapp);
      if check != Available {
        return false;
      }
      if store.Some? ==> UniqueContacts(store.value) {
        AppendKeepsContactsUnique(store, data);
      }
      store := Some(Appended(store, data));
      submissions := submissions + [data];
      showThankYou := true;
      saved := true;
    }

    /** The submit button: the three input checks in order, then the save. */
    method Submit(form: Form) returns (outcome: SubmitOutcome)
      requires Valid()
      modifies this
      ensures Valid()
      ensures Validate(form.email, form.whatsapp).Some? ==>
        outcome == Rejected(Validate(form.email, form.whatsapp).value)
      ensures Validate(form.email, form.whatsapp).None? ==>
        var check := CheckExistingContact(old(store), form.email, form.whatsapp);
        outcome == if check == Available then Accepted else Duplicate(check)
      ensures !outcome.Accepted? ==>
        store == old(store) && submissions == old(submissions) && showThankYou == old(showThankYou)
      ensures outcome.Duplicate? ==> outcome.conflict != Available
      ensures outcome.Accepted? ==>
        && '@' in form.email && IsDigits(form.whatsapp)
        && store == Some(Appended(old(store), ResponseData(form)))
        && submissions == old(submissions) + [ResponseData(form)]
        && showThankYou
    {
      var error := Validate(form.email, form.whatsapp);
      if error.Some? {
        return Rejected(error.value);
      }
      var data := ResponseData(form);
      var check := CheckExistingContact(store, data.email, data.whatsapp);
      var saved := SaveResponse(data);
      outcome := if saved then Accepted else Duplicate(check);
    }

    /** The "new survey" button: shows the form again. */
    method Reset()
      requires Valid()
      modifies this`showThankYou
      ensures Valid()
      ensures !showThankYou
    {
      showThankYou := false;
    }

    /** The prize draw: no winner without submissions, otherwise the email of
        one of this session's submissions, chosen at random. */
    method SpinWheel() returns (winner: Option<string>)
      ensures winner.None? <==> submissions == []
      ensures winner.Some? ==> exists s :: s in submissions && s.email == winner.value
      ensures winner.Some? && Valid() ==> store.Some? && EmailOnFile(store.value, winner.value)
    {
      if submissions == [] {
        return None;
      }
      var participants := Emails(submissions);
      var k :| 0 <= k < |participants|;
      winner := Some(participants[k]);
      assert submissions[k] in submissions;
    }
  }

  /** Saving the same record twice in a row: the first save may succeed, the
      second is always refused, and the record is then stored exactly once. */
  method SaveTwice(session: Session, data: Record) returns (first: bool, second: bool)
    requires session.Valid()
    modifies session
    ensures session.Valid()
    ensures !second
    ensures first ==> session.store.Some? && multiset(session.store.value)[data] == 1
    ensures first ==>
      && session.store == Some(Appended(old(session.store), data))
      && session.submissions == old(session.submissions) + [data]
      && session.showThankYou
    ensures !first ==>
      && session.store == old(session.store)
      && session.submissions == old(session.submissions)
      && session.showThankYou == old(session.showThankYou)
  {
    ghost var before := session.store;
    first := session.SaveResponse(data);
    if first {
      SecondSaveIsDuplicate(before, data);
    }
    second := session.SaveResponse(data);
    if !first {
      assert CheckExistingContact(session.store, data.email, data.whatsapp) != Available;
    }
  }
}
