/**
 * The pure part of the workshop survey: the response record, the checks the
 * submit button runs on the contact fields, the duplicate-contact lookup over
 * the stored rows, and the ", "-join of the multi-select answers.
 */
module Survey {
  import opened Wrappers

  /** A product rating as the 1..5 slider delivers it (app.py:91-92). */
  type Rating = r: int | 1 <= r <= 5 witness 3

  /** One survey response, with the fields in the order they are stored. */
  datatype Record = Record(
    workshops: string,
    massageOilRating: Rating,
    muscleSprayRating: Rating,
    futureInterests: string,
    email: string,
    whatsapp: string,
    feedback: string)

  /** A row of the response file holds exactly the fields of one record. */
  type Row = Record

  /** What the form widgets hand to the submit handler. */
  datatype Form = Form(
    workshops: seq<string>,
    massageOil: Rating,
    muscleSpray: Rating,
    futureInterests: seq<string>,
    email: string,
    whatsapp: string,
    feedback: string)

  const WorkshopOptions: seq<string> :=
    ["Klepon maken", "Pitjit massage", "Geen van beide, ik was toeschouwer"]
  const InterestOptions: seq<string> :=
    ["Workshop Jamu maken", "Cursus Pitjit massage", "Indonesische kookcursus", "Geen interesse op dit moment"]

  // ---------------------------------------------------------------------------
  // Validation of the contact fields
  // ---------------------------------------------------------------------------

  /** The reasons the submit handler refuses a form before looking at the store. */
  datatype InputError = MissingContact | InvalidEmail | InvalidPhone

  function InputErrorMessage(e: InputError): string {
    match e
    case MissingContact => "Vul alstublieft uw e-mailadres en WhatsApp-nummer in."
    case InvalidEmail => "Vul alstublieft een geldig e-mailadres in."
    case InvalidPhone => "Vul alstublieft een geldig telefoonnummer in (alleen cijfers)."
  }

  predicate IsDigitChar(c: char) {
    '0' <= c <= '9'
  }

  /** `str.isdigit` restricted to ASCII: false on the empty string, true when
      every character is a decimal digit. */
  function IsDigits(s: string): (r: bool)
    ensures r <==> |s| > 0 && forall i :: 0 <= i < |s| ==> IsDigitChar(s[i])
  {
    if |s| == 0 then false
    else IsDigitChar(s[0]) && (|s| == 1 || IsDigits(s[1..]))
  }

  /** The three checks of the submit button, in order; the first that fails
      decides the error and the later ones are not consulted. */
  function Validate(email: string, whatsapp: string): (r: Option<InputError>)
    ensures r == Some(MissingContact) <==> email == "" || whatsapp == ""
    ensures r == Some(InvalidEmail) <==> email != "" && whatsapp != "" && '@' !in email
    ensures r == Some(InvalidPhone) <==>
      email != "" && '@' in email && whatsapp != "" &&
      exists i :: 0 <= i < |whatsapp| && !IsDigitChar(whatsapp[i])
    ensures r == None <==>
      '@' in email && |whatsapp| > 0 && forall i :: 0 <= i < |whatsapp| ==> IsDigitChar(whatsapp[i])
  {
    if email == "" || whatsapp == "" then Some(MissingContact)
    else if '@' !in email then Some(InvalidEmail)
    else if !IsDigits(whatsapp) then Some(InvalidPhone)
    else None
  }

  /** A WhatsApp value any of whose characters is not a digit is refused,
      whatever the email is. */
  lemma NonDigitRejected(email: string, whatsapp: string, i: nat)
    requires i < |whatsapp| && !IsDigitChar(whatsapp[i])
    ensures Validate(email, whatsapp).Some?
    ensures email != "" && '@' in email ==> Validate(email, whatsapp) == Some(InvalidPhone)
  {
  }

  // ---------------------------------------------------------------------------
  // The stored columns and the duplicate-contact check
  // ---------------------------------------------------------------------------

  /** The `email` column of the rows, in storage order. */
  function Emails(rows: seq<Row>): (col: seq<string>)
    ensures |col| == |rows|
    ensures forall i :: 0 <= i < |rows| ==> col[i] == rows[i].email
  {
    if rows == [] then [] else [rows[0].email] + Emails(rows[1..])
  }

  /** The `whatsapp` column of the rows, in storage order. */
  function WhatsApps(rows: seq<Row>): (col: seq<string>)
    ensures |col| == |rows|
    ensures forall i :: 0 <= i < |rows| ==> col[i] == rows[i].whatsapp
  {
    if rows == [] then [] else [rows[0].whatsapp] + WhatsApps(rows[1..])
  }

  ghost predicate EmailOnFile(rows: seq<Row>, email: string) {
    exists row :: row in rows && row.email == email
  }

  ghost predicate WhatsAppOnFile(rows: seq<Row>, whatsapp: string) {
    exists row :: row in rows && row.whatsapp == whatsapp
  }

  /** The answer of the contact lookup: free, or which field is taken. */
  datatype ContactCheck = Available | DuplicateEmail | DuplicateWhatsApp

  function ContactCheckMessage(c: ContactCheck): string {
    match c
    case Available => ""
    case DuplicateEmail => "Dit e-mailadres is al gebruikt voor een eerdere inzending."
    case DuplicateWhatsApp => "Dit WhatsApp-nummer is al gebruikt voor een eerdere inzending."
  }

  /** Looks both contact fields up in the stored rows; `None` is a store that
      does not exist yet, and with no store every contact is free. An email
      match is reported before a WhatsApp match. */
  function CheckExistingContact(store: Option<seq<Row>>, email: string, whatsapp: string): (r: ContactCheck)
    ensures store.None? ==> r == Available
    ensures r == DuplicateEmail <==> store.Some? && EmailOnFile(store.value, email)
    ensures r == DuplicateWhatsApp <==>
      store.Some? && !EmailOnFile(store.value, email) && WhatsAppOnFile(store.value, whatsapp)
    ensures r == Available <==>
      store.None? || (!EmailOnFile(store.value, email) && !WhatsAppOnFile(store.value, whatsapp))
  {
    match store
    case None => Available
    case Some(rows) =>
      if email in Emails(rows) then DuplicateEmail
      else if whatsapp in WhatsApps(rows) then DuplicateWhatsApp
      else Available
  }

  /** The stored rows once `row` has been written: a new file holding only that
      row, or the old rows with it appended at the end. */
  function Appended(store: Option<seq<Row>>, row: Row): (rows: seq<Row>)
    ensures |rows| == (if store.Some? then |store.value| else 0) + 1
    ensures store.Some? ==> rows[..|store.value|] == store.value
    ensures rows[|rows| - 1] == row
  {
    match store
    case None => [row]
    case Some(old_rows) => old_rows + [row]
  }

  /** No two stored rows share an email or a WhatsApp number. */
  ghost predicate UniqueContacts(rows: seq<Row>) {
    forall i, j :: 0 <= i < j < |rows| ==>
      rows[i].email != rows[j].email && rows[i].whatsapp != rows[j].whatsapp
  }

  /** Writing a row that passed the contact check keeps every email and every
      WhatsApp number in the store unique. */
  lemma AppendKeepsContactsUnique(store: Option<seq<Row>>, row: Row)
    requires store.Some? ==> UniqueContacts(store.value)
    requires CheckExistingContact(store, row.email, row.whatsapp) == Available
    ensures UniqueContacts(Appended(store, row))
  {
    var rows := Appended(store, row);
    var n := |rows| - 1;
    forall i, j | 0 <= i < j < |rows|
      ensures rows[i].email != rows[j].email && rows[i].whatsapp != rows[j].whatsapp
    {
      if j == n {
        assert store.Some? && rows[i] == store.value[i];
        assert rows[i] in store.value;
      } else {
        assert store.Some? && rows[i] == store.value[i] && rows[j] == store.value[j];
      }
    }
  }

  /** After a row passed the check and was written, the same row is refused as a
      duplicate email, and the store holds it exactly once. */
  lemma SecondSaveIsDuplicate(store: Option<seq<Row>>, row: Row)
    requires CheckExistingContact(store, row.email, row.whatsapp) == Available
    ensures CheckExistingContact(Some(Appended(store, row)), row.email, row.whatsapp) == DuplicateEmail
    ensures multiset(Appended(store, row))[row] == 1
  {
    var rows := Appended(store, row);
    assert rows[|rows| - 1] in rows;
    match store
    case None =>
    case Some(old_rows) =>
      assert row !in old_rows;
      assert rows == old_rows + [row];
  }

  // ---------------------------------------------------------------------------
  // The multi-select answers as one stored string
  // ---------------------------------------------------------------------------

  /** Python's `", ".join(labels)`: nothing selected gives the empty string,
      and the result always starts with the first label. */
  function JoinLabels(labels: seq<string>): (r: string)
    ensures labels == [] ==> r == ""
    ensures |labels| == 1 ==> r == labels[0]
    ensures |labels| > 0 ==> |labels[0]| <= |r| && r[..|labels[0]|] == labels[0]
  {
    if |labels| == 0 then ""
    else if |labels| == 1 then labels[0]
    else labels[0] + ", " + JoinLabels(labels[1..])
  }

  /** Python's `s.split(", ")`: the pieces between the non-overlapping
      separators found from the left; never empty. */
  function SplitLabels(s: string): (pieces: seq<string>)
    ensures |pieces| >= 1
  {
    if |s| == 0 then [""]
    else if |s| >= 2 && s[0] == ',' && s[1] == ' ' then [""] + SplitLabels(s[2..])
    else
      var rest := SplitLabels(s[1..]);
      [[s[0]] + rest[0]] + rest[1..]
  }

  /** Labels that a reader of the stored string can separate again. */
  ghost predicate Separable(labels: seq<string>) {
    forall l :: l in labels ==> ',' !in l
  }

  /** Splitting a string whose first piece has no comma peels that piece off. */
  lemma {:induction false} SplitCommaFreePrefix(a: string, t: string)
    requires ',' !in a
    ensures SplitLabels(a + t) == [a + SplitLabels(t)[0]] + SplitLabels(t)[1..]
  {
    if |a| > 0 {
      var pieces := SplitLabels(t);
      SplitCommaFreePrefix(a[1..], t);
      assert (a + t)[1..] == a[1..] + t;
      var rest := SplitLabels((a + t)[1..]);
      assert rest == [a[1..] + pieces[0]] + pieces[1..];
      assert (a + t)[0] == a[0] && a[0] in a;
      assert SplitLabels(a + t) == [[a[0]] + rest[0]] + rest[1..];
      assert [a[0]] + (a[1..] + pieces[0]) == a + pieces[0];
    } else {
      assert a + t == t;
      assert a + SplitLabels(t)[0] == SplitLabels(t)[0];
      assert SplitLabels(t) == [SplitLabels(t)[0]] + SplitLabels(t)[1..];
    }
  }

  /** The stored join of comma-free labels splits back into the same labels. */
  lemma {:induction false} SplitJoin(labels: seq<string>)
    requires |labels| > 0 && Separable(labels)
    ensures SplitLabels(JoinLabels(labels)) == labels
  {
    if |labels| == 1 {
      SplitCommaFreePrefix(labels[0], "");
      assert labels[0] + "" == labels[0];
    } else {
      var tail := labels[1..];
      assert labels[0] in labels;
      assert Separable(tail) by {
        forall l | l in tail ensures ',' !in l { assert l in labels; }
      }
      SplitJoin(tail);
      var sep := ", " + JoinLabels(tail);
      assert JoinLabels(labels) == labels[0] + sep;
      SplitCommaFreePrefix(labels[0], sep);
      assert sep[2..] == JoinLabels(tail);
      assert SplitLabels(sep) == [""] + tail;
      assert labels[0] + "" == labels[0];
      assert labels == [labels[0]] + tail;
    }
  }

  lemma SplitJoinWhenSeparable(labels: seq<string>)
    ensures |labels| > 0 && Separable(labels) ==> SplitLabels(JoinLabels(labels)) == labels
  {
    if |labels| > 0 && Separable(labels) { SplitJoin(labels); }
  }

  /** Non-empty labels join to the empty string only when none is selected. */
  lemma JoinEmpty(labels: seq<string>)
    requires forall l :: l in labels ==> l != ""
    ensures JoinLabels(labels) == "" <==> labels == []
  {
    if |labels| > 0 {
      assert labels[0] in labels;
    }
  }

  /** Distinct selections of non-empty, comma-free labels are stored as
      distinct strings. */
  lemma JoinInjective(a: seq<string>, b: seq<string>)
    requires Separable(a) && Separable(b)
    requires forall l :: l in a ==> l != ""
    requires forall l :: l in b ==> l != ""
    requires JoinLabels(a) == JoinLabels(b)
    ensures a == b
  {
    JoinEmpty(a);
    JoinEmpty(b);
    if |a| > 0 && |b| > 0 {
      SplitJoin(a);
      SplitJoin(b);
    }
  }

  /** The third workshop label itself holds ", ", so choosing it alone is stored
      as a string that splits into two pieces. */
  lemma SpectatorLabelNotSeparable()
    ensures |SplitLabels(JoinLabels([WorkshopOptions[2]]))| == 2
  {
    var head := "Geen van beide";
    var tail := "ik was toeschouwer";
    assert ',' !in head && ',' !in tail;
    assert WorkshopOptions[2] == head + (", " + tail);
    SplitCommaFreePrefix(head, ", " + tail);
    assert (", " + tail)[2..] == tail;
    SplitCommaFreePrefix(tail, "");
    assert tail + "" == tail;
  }

  /** Every future-interest label is comma-free, so any selection of them
      survives the join. */
  lemma InterestSelectionSeparable(labels: seq<string>)
    requires |labels| > 0
    requires forall l :: l in labels ==> l in InterestOptions
    ensures SplitLabels(JoinLabels(labels)) == labels
  {
    InterestOptionsCommaFree();
    SplitJoin(labels);
  }

  /** No future-interest label contains a comma. */
  lemma InterestOptionsCommaFree()
    ensures forall l :: l in InterestOptions ==> ',' !in l
  {
    assert ',' !in InterestOptions[0] && ',' !in InterestOptions[1];
    assert ',' !in InterestOptions[2] && ',' !in InterestOptions[3];
  }

  /** The record the submit handler builds from the form: contacts and
      ratings verbatim, the multi-select answers joined with ", ". */
  function ResponseData(form: Form): (r: Record)
    ensures r.email == form.email && r.whatsapp == form.whatsapp && r.feedback == form.feedback
    ensures r.massageOilRating == form.massageOil && r.muscleSprayRating == form.muscleSpray
    ensures r.workshops == JoinLabels(form.workshops)
    ensures r.futureInterests == JoinLabels(form.futureInterests)
    ensures |form.workshops| > 0 && Separable(form.workshops) ==> SplitLabels(r.workshops) == form.workshops
    ensures |form.futureInterests| > 0 && Separable(form.futureInterests) ==>
      SplitLabels(r.futureInterests) == form.futureInterests
  {
    SplitJoinWhenSeparable(form.workshops);
    SplitJoinWhenSeparable(form.futureInterests);
    Record(JoinLabels(form.workshops), form.massageOil, form.muscleSpray,
           JoinLabels(form.futureInterests), form.email, form.whatsapp, form.feedback)
  }
}
