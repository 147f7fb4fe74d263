/**
 * The contact form of the home page: its five text fields, the in-flight
 * flag, the status line, and the submit handler that validates the required
 * fields and appends one document to the store.
 *
 * The handler is `async`: everything up to its `await` runs at once, the rest
 * runs when the store call settles.  The model keeps that split:
 * `Controller.HandleSubmit` is the part before the `await` (validation, flag,
 * the store call) and `Controller.Resolve` the part after it (the success or
 * failure branch and the `finally`).  Between the two, the awaited record is
 * kept in `pending`.
 */
module ContactForm {
  import opened Common
  import opened Store

  /** The ids of the form's fields; an input's `id` names the field it edits. */
  datatype FieldId = Name | Email | Phone | Subject | Message

  /** The `formData` record. */
  datatype Fields = Fields(name: string, email: string, phone: string, subject: string, message: string)

  /** `formData` initially and after a successful submission. */
  const Blank: Fields := Fields("", "", "", "", "")

  /** The fields the submit handler insists on; `phone` and `subject` are not checked. */
  const Required: set<FieldId> := {Name, Email, Message}

  /** The ids of the inputs the page renders; no input has the id `subject`. */
  const RenderedInputs: set<FieldId> := {Name, Email, Phone, Message}

  const RequiredMissing: string := "Please fill in all required fields"
  const Sent: string := "Message sent successfully! We will get in touch soon \U{F8FF}\U{FC}\U{F2}\U{E4}"
  const SendFailed: string := "Failed to send message. Please try again."

  function Get(f: Fields, id: FieldId): string {
    match id
    case Name => f.name
    case Email => f.email
    case Phone => f.phone
    case Subject => f.subject
    case Message => f.message
  }

  /** `{...prev, [id]: value}`: field `id` becomes `value`, every other field keeps its value. */
  function Update(f: Fields, id: FieldId, value: string): (r: Fields)
    ensures Get(r, id) == value
    ensures forall other :: other != id ==> Get(r, other) == Get(f, other)
  {
    match id
    case Name => f.(name := value)
    case Email => f.(email := value)
    case Phone => f.(phone := value)
    case Subject => f.(subject := value)
    case Message => f.(message := value)
  }

  /** The submit handler's guard: name, email and message are all non-empty. */
  predicate HasRequired(f: Fields) {
    f.name != "" && f.email != "" && f.message != ""
  }

  /** The document `addDoc` receives: the five fields, the timestamp, and `emailSent: false`. */
  function Record(f: Fields, createdAt: string): (d: Doc)
    ensures d.ContactDoc? && FieldsOf(d) == f
    ensures d.createdAt == createdAt && !d.emailSent
  {
    ContactDoc(f.name, f.email, f.phone, f.subject, f.message, createdAt, false)
  }

  /** The form fields a contact document carries. */
  function FieldsOf(d: Doc): Fields
    requires d.ContactDoc?
  {
    Fields(d.name, d.email, d.phone, d.subject, d.message)
  }

  /** The component's state: `formData`, `isSubmitting`, `submitStatus` and the awaited record. */
  datatype State = State(form: Fields, isSubmitting: bool, status: Option<Status>, pending: Option<Doc>)

  const Initial: State := State(Blank, false, None, None)

  /** The in-flight flag is up exactly while a store call is awaited. */
  predicate Valid(s: State) {
    s.isSubmitting <==> s.pending.Some?
  }

  /** `handleChange`. */
  function AfterChange(s: State, id: FieldId, value: string): State {
    s.(form := Update(s.form, id, value))
  }

  /** `handleSubmit` up to its `await`: either the validation message, or the flag and the store call. */
  function AfterSubmit(s: State, createdAt: string): State {
    if !HasRequired(s.form) then
      s.(status := Some(Status(false, RequiredMissing)))
    else
      s.(isSubmitting := true, pending := Some(Record(s.form, createdAt)))
  }

  /** `handleSubmit` after its `await`: the success or failure branch, then the `finally`. */
  function AfterSettle(s: State, ok: bool): State {
    var decided :=
      if ok then s.(status := Some(Status(true, Sent)), form := Blank)
      else s.(status := Some(Status(false, SendFailed)));
    decided.(isSubmitting := false, pending := None)
  }

  /**
   * An input edit, a press of the submit button, or the settling of the
   * awaited store call.  A press while `isSubmitting` hits a disabled button
   * and does nothing; a settlement arrives only while a call is awaited.
   */
  datatype Event = Edit(id: FieldId, value: string) | Press(createdAt: string) | Settle(ok: bool)

  function Step(s: State, e: Event): State {
    match e
    case Edit(id, value) => AfterChange(s, id, value)
    case Press(createdAt) => if s.isSubmitting then s else AfterSubmit(s, createdAt)
    case Settle(ok) => if s.isSubmitting then AfterSettle(s, ok) else s
  }

  /** The documents event `e` sends to the store from state `s`. */
  function Issued(s: State, e: Event): seq<Doc> {
    if e.Press? && !s.isSubmitting && HasRequired(s.form) then [Record(s.form, e.createdAt)] else []
  }

  /** The state after the events `evs`, in order. */
  function Run(s: State, evs: seq<Event>): State
    decreases |evs|
  {
    if evs == [] then s else Run(Step(s, evs[0]), evs[1..])
  }

  /** Every document the events `evs` send to the store, in order. */
  function Requests(s: State, evs: seq<Event>): seq<Doc>
    decreases |evs|
  {
    if evs == [] then [] else Issued(s, evs[0]) + Requests(Step(s, evs[0]), evs[1..])
  }

  /** How many awaited store calls the events `evs` settle. */
  function Settlements(s: State, evs: seq<Event>): nat
    decreases |evs|
  {
    if evs == [] then 0
    else (if evs[0].Settle? && s.isSubmitting then 1 else 0) + Settlements(Step(s, evs[0]), evs[1..])
  }

  function Flag(s: State): nat {
    if s.isSubmitting then 1 else 0
  }

  // ---------------------------------------------------------------------------
  // One submission

  /** The guard checks exactly the required fields: editing `phone` or `subject` never changes its verdict. */
  lemma RequiredFieldsOnly(f: Fields, id: FieldId, value: string)
    ensures HasRequired(f) <==> forall r :: r in Required ==> Get(f, r) != ""
    ensures id !in Required ==> HasRequired(Update(f, id, value)) == HasRequired(f)
  {
  }

  /** A missing name, email or message: the status says so, nothing is sent, nothing else changes. */
  lemma RejectedSubmit(s: State, createdAt: string)
    requires Valid(s) && !s.isSubmitting && !HasRequired(s.form)
    ensures AfterSubmit(s, createdAt) == s.(status := Some(Status(false, RequiredMissing)))
    ensures !AfterSubmit(s, createdAt).isSubmitting
    ensures Issued(s, Press(createdAt)) == []
  {
  }

  /** Validation passes: exactly one record, of the current fields, is sent, and the flag is up while it is awaited. */
  lemma AcceptedSubmit(s: State, createdAt: string)
    requires Valid(s) && !s.isSubmitting && HasRequired(s.form)
    ensures Issued(s, Press(createdAt)) == [Record(s.form, createdAt)]
    ensures var t := AfterSubmit(s, createdAt);
      t.isSubmitting && Valid(t) && t.form == s.form && t.status == s.status
  {
  }

  /** The store call succeeds: success message, every field empty, flag down. */
  lemma SuccessfulSubmit(s: State, createdAt: string)
    requires Valid(s) && !s.isSubmitting && HasRequired(s.form)
    ensures var t := AfterSettle(AfterSubmit(s, createdAt), true);
      && t.status == Some(Status(true, Sent))
      && (forall id :: Get(t.form, id) == "")
      && !t.isSubmitting && Valid(t)
  {
  }

  /** The store call fails: failure message, and otherwise the state from before the press. */
  lemma FailedSubmit(s: State, createdAt: string)
    requires Valid(s) && !s.isSubmitting && HasRequired(s.form)
    ensures AfterSettle(AfterSubmit(s, createdAt), false) == s.(status := Some(Status(false, SendFailed)))
  {
  }

  /** The rejected example: an empty name with an email and a message. */
  lemma EmptyNameExample()
    ensures var s := State(Fields("", "jo@x.com", "", "", "hi"), false, None, None);
      && Issued(s, Press("t")) == []
      && Step(s, Press("t")) == s.(status := Some(Status(false, "Please fill in all required fields")))
  {
  }

  // ---------------------------------------------------------------------------
  // Any sequence of events

  /** The flag is up exactly while a call is awaited, whatever the user does. */
  lemma {:induction false} RunKeepsValid(s: State, evs: seq<Event>)
    requires Valid(s)
    ensures Valid(Run(s, evs))
    decreases |evs|
  {
    if evs != [] {
      RunKeepsValid(Step(s, evs[0]), evs[1..]);
    }
  }

  /**
   * Every request the form ever sends has a name, an email and a message and
   * `emailSent: false`.
   */
  lemma {:induction false} RequestsAreComplete(s: State, evs: seq<Event>)
    ensures forall d :: d in Requests(s, evs) ==>
      d.ContactDoc? && HasRequired(FieldsOf(d)) && !d.emailSent
    decreases |evs|
  {
    if evs != [] {
      RequestsAreComplete(Step(s, evs[0]), evs[1..]);
    }
  }

  /**
   * At most one request is in flight: the requests sent equal the calls
   * settled plus the one still awaited, if any.
   */
  lemma {:induction false} OneRequestInFlight(s: State, evs: seq<Event>)
    ensures |Requests(s, evs)| + Flag(s) == Settlements(s, evs) + Flag(Run(s, evs))
    decreases |evs|
  {
    if evs != [] {
      OneRequestInFlight(Step(s, evs[0]), evs[1..]);
    }
  }

  /**
   * Edits come only from the rendered inputs, and none edits `subject`: so
   * `subject` stays empty, and so does the `subject` of every request.
   */
  lemma {:induction false} SubjectStaysEmpty(s: State, evs: seq<Event>)
    requires s.form.subject == ""
    requires forall i :: 0 <= i < |evs| && evs[i].Edit? ==> evs[i].id in RenderedInputs
    ensures Run(s, evs).form.subject == ""
    ensures forall d :: d in Requests(s, evs) ==> d.ContactDoc? && d.subject == ""
    decreases |evs|
  {
    if evs != [] {
      var t := Step(s, evs[0]);
      assert t.form.subject == "";
      forall i | 0 <= i < |evs[1..]| && evs[1..][i].Edit?
        ensures evs[1..][i].id in RenderedInputs
      {
        assert evs[1..][i] == evs[i + 1];
      }
      SubjectStaysEmpty(t, evs[1..]);
    }
  }

  // ---------------------------------------------------------------------------
  // The component

  /** The `Home` component's form state; `db` is the store it writes to. */
  class Controller {
    var form: Fields
    var isSubmitting: bool
    var status: Option<Status>
    /** The record of the store call being awaited, if any. */
    var pending: Option<Doc>
    const db: Database

    function Snapshot(): State
      reads this
    {
      State(form, isSubmitting, status, pending)
    }

    constructor (db: Database)
      ensures Snapshot() == Initial && Valid(Snapshot()) && this.db == db
    {
      form := Blank;
      isSubmitting := false;
      status := None;
      pending := None;
      this.db := db;
    }

    /** `handleChange`: the input `id` now holds `value`. */
    method HandleChange(id: FieldId, value: string)
      requires Valid(Snapshot())
      modifies this
      ensures Valid(Snapshot())
      ensures form == Update(old(form), id, value)
      ensures isSubmitting == old(isSubmitting) && status == old(status) && pending == old(pending)
      ensures Snapshot() == Step(old(Snapshot()), Edit(id, value))
    {
      form := Update(form, id, value);
    }

    /**
     * `handleSubmit` up to its `await`.  The submit button is disabled while
     * `isSubmitting`, so the handler runs only when the flag is down.
     */
    method HandleSubmit(createdAt: string) returns (issued: bool)
      requires Valid(Snapshot()) && !isSubmitting
      modifies this, db
      ensures Valid(Snapshot())
      ensures issued == HasRequired(old(form))
      ensures !issued ==>
        && status == Some(Status(false, RequiredMissing))
        && form == old(form) && !isSubmitting && pending == None
        && db.Requested(Submissions) == old(db.Requested(Submissions))
      ensures issued ==>
        && isSubmitting && pending == Some(Record(old(form), createdAt))
        && form == old(form) && status == old(status)
        && db.Requested(Submissions) == old(db.Requested(Submissions)) + [Record(old(form), createdAt)]
      ensures forall other :: other != Submissions ==> db.Requested(other) == old(db.Requested(other))
      ensures Snapshot() == Step(old(Snapshot()), Press(createdAt))
      ensures db.Requested(Submissions) == old(db.Requested(Submissions)) + Issued(old(Snapshot()), Press(createdAt))
    {
      if form.name == "" || form.email == "" || form.message == "" {
        status := Some(Status(false, RequiredMissing));
        return false;
      }
      isSubmitting := true;
      var doc := Record(form, createdAt);
      db.AddDoc(Submissions, doc);
      pending := Some(doc);
      return true;
    }

    /** The rest of `handleSubmit`, once the awaited store call settles with outcome `ok`. */
    method Resolve(ok: bool)
      requires Valid(Snapshot()) && isSubmitting
      modifies this
      ensures Valid(Snapshot())
      ensures !isSubmitting && pending == None
      ensures ok ==> status == Some(Status(true, Sent)) && form == Blank
      ensures !ok ==> status == Some(Status(false, SendFailed)) && form == old(form)
      ensures Snapshot() == Step(old(Snapshot()), Settle(ok))
    {
      if ok {
        status := Some(Status(true, Sent));
        form := Blank;
      } else {
        status := Some(Status(false, SendFailed));
      }
      isSubmitting := false;
      pending := None;
    }

    /** A whole submission whose store call, if one is made, settles with outcome `storeOk`. */
    method Submit(createdAt: string, storeOk: bool)
      requires Valid(Snapshot()) && !isSubmitting
      modifies this, db
      ensures Valid(Snapshot()) && !isSubmitting
      ensures !HasRequired(old(form)) ==>
        && status == Some(Status(false, RequiredMissing)) && form == old(form)
        && db.Requested(Submissions) == old(db.Requested(Submissions))
      ensures HasRequired(old(form)) ==>
        db.Requested(Submissions) == old(db.Requested(Submissions)) + [Record(old(form), createdAt)]
      ensures HasRequired(old(form)) && storeOk ==> status == Some(Status(true, Sent)) && form == Blank
      ensures HasRequired(old(form)) && !storeOk ==> status == Some(Status(false, SendFailed)) && form == old(form)
      ensures forall other :: other != Submissions ==> db.Requested(other) == old(db.Requested(other))
      ensures Snapshot() == Run(old(Snapshot()), [Press(createdAt), Settle(storeOk)])
    {
      ghost var s0 := Snapshot();
      var issued := HandleSubmit(createdAt);
      if issued {
        Resolve(storeOk);
      }
      ghost var evs := [Press(createdAt), Settle(storeOk)];
      assert evs[1..] == [Settle(storeOk)] && [Settle(storeOk)][1..] == [];
      ghost var t1 := Step(s0, evs[0]);
      assert Run(t1, [Settle(storeOk)]) == Run(Step(t1, Settle(storeOk)), []);
      assert Run(s0, evs) == Run(t1, [Settle(storeOk)]);
    }
  }
}
