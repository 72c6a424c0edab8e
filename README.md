# Workshop survey: dedup, save and prize draw

This project models the decision logic of a small survey app for workshop
attendees ("Javaanse Rituelen en Recepten"). The app is a single Streamlit script, `app.py`.
An attendee fills in a form and presses the submit button. The handler checks
the contact fields in a fixed order. It then refuses an email or WhatsApp
number that is already in the response file. Otherwise it appends one row to
that file, adds the record to the session's list of submissions and shows a
thank-you screen. A separate tab draws a prize winner at random from the
session's submissions.

The model has three modules:

- `Wrappers` (`wrappers.dfy`): the `Option` type. `None` is an absent store, no
  winner or no error.
- `Survey` (`survey.dfy`): the pure parts. These are the record and the form,
  the three input checks (`Validate`), the stored email and WhatsApp columns,
  the duplicate-contact lookup (`CheckExistingContact`), the row append, and
  the `", "`-join of the two multi-select answers with its partner, a model of
  Python's `str.split(", ")`.
- `SurveyApp` (`session.dfy`): the class `Session`. Its fields are
  `store: Option<seq<Row>>` (the response file, `None` before it exists),
  `submissions: seq<Record>` (the session list) and `showThankYou: bool`. Its
  methods are `SaveResponse`, `Submit`, `Reset` and `SpinWheel`.

The duplicate check reads `store` and the draw reads only `submissions`. These are
two separate pieces of state, and `SaveResponse` updates both. `Session.Valid()`
says that every session submission is also a stored row. So a drawn winner is
always the email of a stored row. `UniqueContacts` says that no two stored rows
share an email or a WhatsApp number. `SaveResponse` preserves it.

A row of the file holds exactly the fields of one record, in the same order
(`type Row = Record`). The header that `to_csv` writes when it creates the file is
implied by `store` becoming `Some`. Row membership is exact string equality.

Three details of the code shape the model:

- The draw picks from the session's `submissions` list, not from all stored
  responses (app.py:56-60).
- There is no `name` field and no remote spreadsheet store.
- Only email and WhatsApp are required fields.

Remark on the stored join: `SplitJoin` proves that a selection of comma-free
labels survives the join. `InterestSelectionSeparable` shows that every
future-interest selection is such a selection. The workshop label
"Geen van beide, ik was toeschouwer" itself contains `", "`.
`SpectatorLabelNotSeparable` shows that a row holding that choice splits into
two pieces. The app never splits the string again, so this is a limit on reading
the file back, not a defect of the app.

## Model

| member | source | states |
|---|---|---|
| `Survey.IsDigits` | app.py:117 | true exactly when the string is non-empty and every character is a decimal digit (so the empty string is not "all digits", as for `str.isdigit`) |
| `Survey.Validate` | app.py:108-119 | first failing check wins. The result is MissingContact iff email or WhatsApp is empty. It is InvalidEmail iff both are present and the email has no `@`. It is InvalidPhone iff both are present, the email has an `@` and some WhatsApp character is not a digit. There is no error iff the email has an `@` and the WhatsApp value is a non-empty digit string |
| `Survey.NonDigitRejected` | app.py:117-119 | any non-digit character in the WhatsApp value causes rejection, and with a present, `@`-bearing email the reason is the phone format |
| `Survey.Emails` | app.py:31 | the email column: one entry per row, in storage order, entry i being row i's email |
| `Survey.WhatsApps` | app.py:33 | the WhatsApp column: one entry per row, in storage order, entry i being row i's WhatsApp number |
| `Survey.CheckExistingContact` | app.py:27-35 | no store means Available. With a store, it gives DuplicateEmail iff some stored row has the email. It gives DuplicateWhatsApp iff no row has the email and some row has the WhatsApp number. It gives Available iff neither is on file |
| `Survey.Appended` | app.py:45-49 | a missing store becomes a one-row file. An existing store keeps all its rows as a prefix, and the new row is the one last row added |
| `Survey.AppendKeepsContactsUnique` | app.py:39-49 | appending a row that passed the contact check to a store with unique emails and WhatsApp numbers keeps both unique |
| `Survey.SecondSaveIsDuplicate` | app.py:39-49 | after a row passed the check and was appended, checking it again gives DuplicateEmail, and the store holds that row exactly once |
| `Survey.JoinLabels` | app.py:122-125 | Python's `", ".join`: no selection gives the empty string, one label gives that label, and the result always starts with the first label |
| `Survey.SplitJoin` | app.py:122-125 | the `", "`-join of a non-empty selection of comma-free labels splits back into exactly that selection |
| `Survey.JoinEmpty` | app.py:122-125 | with non-empty labels, the join is the empty string exactly when nothing was selected |
| `Survey.JoinInjective` | app.py:122-125 | two selections of non-empty, comma-free labels that are stored as the same string are the same selection |
| `Survey.SpectatorLabelNotSeparable` | app.py:84-87 | choosing only "Geen van beide, ik was toeschouwer" stores a string that splits into two pieces |
| `Survey.InterestSelectionSeparable` | app.py:95-98 | any non-empty selection of future-interest options splits back into itself after the join |
| `Survey.ResponseData` | app.py:121-129 | the record keeps email, WhatsApp, feedback and both ratings verbatim. Each multi-select field is the `", "`-join of its selection, and it splits back into the selection when that selection is non-empty and comma-free |
| `SurveyApp.Session.constructor` | app.py:11-16 | a new session starts with no submissions and the thank-you flag off, over the existing response file |
| `SurveyApp.Session.SaveResponse` | app.py:37-52 | it returns true iff the contact check on the old store is Available. On a conflict, store, submissions and flag are unchanged. On success, the store is the old store with one row appended (or a new file), the record is appended to submissions and the flag is set. The session invariant and contact uniqueness are preserved |
| `SurveyApp.Session.Submit` | app.py:108-131 | an input error is returned as Rejected with no state change. Otherwise the outcome is Accepted or Duplicate(conflict), as the contact check decides. A Duplicate always names a real conflict. Only Accepted changes state: it saves the built record, and only a non-empty digit WhatsApp value and an `@`-bearing email get there |
| `SurveyApp.Session.Reset` | app.py:134-135 | the thank-you flag is cleared, nothing else changes, and the session invariant is kept |
| `SurveyApp.Session.SpinWheel` | app.py:54-71 | no winner iff submissions is empty. Otherwise the winner is the email of some submission and, under the session invariant, the email of a stored row. Nothing is modified |
| `SurveyApp.SaveTwice` | app.py:37-52 | saving the same record twice in a row: the second save is always refused. If the first succeeded, the store is the old store with the record appended and holds it exactly once, the record is appended to submissions and the flag is set. If the first was refused, store, submissions and flag are unchanged |
| `SurveyApp.SubmitOutcome.Message` | app.py:110-131 | a rejection shows the message of its input error and a duplicate the message the contact check returned. Every outcome the handler can produce has a non-empty message |
| `SurveyApp.MessagesDistinguishOutcomes` | app.py:108-131 | two different outcomes of the submit button show two different messages |

## Left out

- Rendering with Streamlit (tabs, widgets, `st.error`/`st.success`, the participants table, `st.rerun`): UI only. The Dutch messages are kept, and `SubmitOutcome.Message` ties each outcome to its message.
- SurveyApp.Session.Submit: the app shows the form, and so the submit button, only while the thank-you flag is off (app.py:80). The model lets `Submit` run with the flag on as well, so it covers more calls than the app can make. Likewise `Reset` runs whatever the flag is, although its button only appears while the flag is on.
- QR code generation and the `STREAMLIT_URL` environment lookup (`create_qr_code`): a foreign library call plus I/O.
- pandas CSV reading and writing: the file is an abstract sequence of rows compared by exact string equality. pandas' type coercion on reading back is not modelled. pandas reads the `whatsapp` column back as integers (leading zeros dropped). The string typed into the form then never equals a stored value, so in the real app the WhatsApp duplicate check (app.py:33) can never match. `CheckExistingContact`'s WhatsApp case, and the WhatsApp half of `AppendKeepsContactsUnique` and `UniqueContacts`, hold for the model only.
- Storage errors (an unreadable or unwritable file): the model's writes always succeed.
- Unicode digits accepted by `str.isdigit`: only `'0'..'9'` count as digits.
- The 20 cosmetic random picks and `time.sleep` of the spin animation: they do not affect the winner.
- `SurveyApp.Session.SpinWheel`: the random pick is modelled as an arbitrary choice among the participants. It does not state that the choice is uniform.
- Other sessions writing the same file between the check and the append, and any change to the file from outside: the model is single-threaded and only this session writes the store.
