/**
 * The feature-request page's form: three text fields, the in-flight flag, the
 * status line, and the submit handler.  As for the contact form, the `async`
 * handler is split at its `await`: `Controller.HandleSubmit` runs up to the
 * store call, `Controller.Resolve` runs when the call settles.
 */
module FeatureForm {
  import opened Common
  import opened Store

  /** The ids of the form's inputs. */
  datatype FieldId = Name | Email | Feature

  /** The `form` record. */
  datatype Fields = Fields(name: string, email: string, feature: string)

  /** `form` initially and after a successful submission. */
  const Blank: Fields := Fields("", "", "")

  const MissingFields: string := "Please fill all fields."
  const Sent: string := "Feature request sent! Thank you!"
  const SendFailed: string := "Something went wrong. Try again."

  function Get(f: Fields, id: FieldId): string {
    match id
    case Name => f.name
    case Email => f.email
    case Feature => f.feature
  }

  /** `{ ...form, [id]: value }`: field `id` becomes `value`, the others keep theirs. */
  function Update(f: Fields, id: FieldId, value: string): (r: Fields)
    ensures Get(r, id) == value
    ensures forall other :: other != id ==> Get(r, other) == Get(f, other)
  {
    match id
    case Name => f.(name := value)
    case Email => f.(email := value)
    case Feature => f.(feature := value)
  }

  /** The submit handler's guard: name, email and feature are all non-empty. */
  predicate Filled(f: Fields) {
    f.name != "" && f.email != "" && f.feature != ""
  }

  /** The document `addDoc` receives: the three fields and the timestamp. */
  function Record(f: Fields, createdAt: string): (d: Doc)
    ensures d.FeatureDoc? && FieldsOf(d) == f && d.createdAt == createdAt
  {
    FeatureDoc(f.name, f.email, f.feature, createdAt)
  }

  /** The form fields a feature document carries. */
  function FieldsOf(d: Doc): Fields
    requires d.FeatureDoc?
  {
    Fields(d.name, d.email, d.feature)
  }

  /** The component's state: `form`, `isSubmitting`, `status` and the awaited record. */
  datatype State = State(form: Fields, isSubmitting: bool, status: Option<Status>, pending: Option<Doc>)

  const Initial: State := State(Blank, false, None, None)

  /** The in-flight flag is up exactly while a store call is awaited. */
  predicate Valid(s: State) {
    s.isSubmitting <==> s.pending.Some?
  }

  /** `handleChange`. */
  function AfterChange(s: State, id: FieldId, value: string): State {
    s.(form := Update(s.form, id, value))
  }

  /** `handleSubmit` up to its `await`. */
  function AfterSubmit(s: State, createdAt: string): State {
    if !Filled(s.form) then
      s.(status := Some(Status(false, MissingFields)))
    else
      s.(isSubmitting := true, pending := Some(Record(s.form, createdAt)))
  }

  /** `handleSubmit` after its `await`: the success or failure branch, then the `finally`. */
  function AfterSettle(s: State, ok: bool): State {
    var decided :=
      if ok then s.(status := Some(Status(true, Sent)), form := Blank)
      else s.(status := Some(Status(false, SendFailed)));
    decided.(isSubmitting := false, pending := None)
  }

  /**
   * An input edit, a press of the submit button (ignored while the button is
   * disabled), or the settling of the awaited store call.
   */
  datatype Event = Edit(id: FieldId, value: string) | Press(createdAt: string) | Settle(ok: bool)

  function Step(s: State, e: Event): State {
    match e
    case Edit(id, value) => AfterChange(s, id, value)
    case Press(createdAt) => if s.isSubmitting then s else AfterSubmit(s, createdAt)
    case Settle(ok) => if s.isSubmitting then AfterSettle(s, ok) else s
  }

  /** The documents event `e` sends to the store from state `s`. */
  function Issued(s: State, e: Event): seq<Doc> {
    if e.Press? && !s.isSubmitting && Filled(s.form) then [Record(s.form, e.createdAt)] else []
  }

  function Run(s: State, evs: seq<Event>): State
    decreases |evs|
  {
    if evs == [] then s else Run(Step(s, evs[0]), evs[1..])
  }

  function Requests(s: State, evs: seq<Event>): seq<Doc>
    decreases |evs|
  {
    if evs == [] then [] else Issued(s, evs[0]) + Requests(Step(s, evs[0]), evs[1..])
  }

  function Settlements(s: State, evs: seq<Event>): nat
    decreases |evs|
  {
    if evs == [] then 0
    else (if evs[0].Settle? && s.isSubmitting then 1 else 0) + Settlements(Step(s, evs[0]), evs[1..])
  }

  function Flag(s: State): nat {
    if s.isSubmitting then 1 else 0
  }

  // ---------------------------------------------------------------------------
  // One submission

  /** An empty field: the status says so, nothing is sent, nothing else changes. */
  lemma RejectedSubmit(s: State, createdAt: string)
    requires Valid(s) && !s.isSubmitting && !Filled(s.form)
    ensures (exists id :: Get(s.form, id) == "")
    ensures AfterSubmit(s, createdAt) == s.(status := Some(Status(false, MissingFields)))
    ensures Issued(s, Press(createdAt)) == []
  {
    if s.form.name == "" {
      assert Get(s.form, Name) == "";
    } else if s.form.email == "" {
      assert Get(s.form, Email) == "";
    } else {
      assert Get(s.form, Feature) == "";
    }
  }

  /** Every field filled: exactly one record, of the current fields, is sent, and the flag is up while it is awaited. */
  lemma AcceptedSubmit(s: State, createdAt: string)
    requires Valid(s) && !s.isSubmitting && Filled(s.form)
    ensures Issued(s, Press(createdAt)) == [Record(s.form, createdAt)]
    ensures var t := AfterSubmit(s, createdAt);
      t.isSubmitting && Valid(t) && t.form == s.form && t.status == s.status
  {
  }

  /** The store call succeeds: success message, every field empty, flag down. */
  lemma SuccessfulSubmit(s: State, createdAt: string)
    requires Valid(s) && !s.isSubmitting && Filled(s.form)
    ensures var t := AfterSettle(AfterSubmit(s, createdAt), true);
      && t.status == Some(Status(true, Sent))
      && (forall id :: Get(t.form, id) == "")
      && !t.isSubmitting && Valid(t)
  {
  }

  /** The store call fails: failure message, and otherwise the state from before the press. */
  lemma FailedSubmit(s: State, createdAt: string)
    requires Valid(s) && !s.isSubmitting && Filled(s.form)
    ensures AfterSettle(AfterSubmit(s, createdAt), false) == s.(status := Some(Status(false, SendFailed)))
  {
  }

  /** After a successful submission the form is empty, so pressing again sends nothing. */
  lemma NoResendAfterSuccess(s: State, c1: string, c2: string)
    requires Valid(s) && !s.isSubmitting && Filled(s.form)
    ensures var t := Run(s, [Press(c1), Settle(true)]);
      Issued(t, Press(c2)) == [] && Step(t, Press(c2)).status == Some(Status(false, MissingFields))
  {
    var evs := [Press(c1), Settle(true)];
    var t1 := Step(s, evs[0]);
    assert evs[1..] == [Settle(true)] && [Settle(true)][1..] == [];
    assert Run(s, evs) == Step(t1, Settle(true));
  }

  /** The accepted example: Jo's dark-mode request goes through and the form resets. */
  lemma DarkModeExample()
    ensures var s := State(Fields("Jo", "jo@x.com", "dark mode"), false, None, None);
      var t := Run(s, [Press("t"), Settle(true)]);
      && Requests(s, [Press("t"), Settle(true)]) == [FeatureDoc("Jo", "jo@x.com", "dark mode", "t")]
      && t.status == Some(Status(true, "Feature request sent! Thank you!"))
      && t.form == Fields("", "", "")
  {
  }

  // ---------------------------------------------------------------------------
  // Any sequence of events

  /** The flag is up exactly while a call is awaited, whatever the user does. */
  lemma {:induction false} RunKeepsValid(s: State, evs: seq<Event>)
    requires Valid(s)
    ensures Valid(Run(s, evs))
    decreases |evs|
  {
    if evs != [] {
      RunKeepsValid(Step(s, evs[0]), evs[1..]);
    }
  }

  /** No request the page sends has an empty field. */
  lemma {:induction false} RequestsAreFilled(s: State, evs: seq<Event>)
    ensures forall d :: d in Requests(s, evs) ==>
      d.FeatureDoc? && forall id :: Get(FieldsOf(d), id) != ""
    decreases |evs|
  {
    if evs != [] {
      RequestsAreFilled(Step(s, evs[0]), evs[1..]);
    }
  }

  /** At most one request is in flight: requests sent equal calls settled plus the one awaited, if any. */
  lemma {:induction false} OneRequestInFlight(s: State, evs: seq<Event>)
    ensures |Requests(s, evs)| + Flag(s) == Settlements(s, evs) + Flag(Run(s, evs))
    decreases |evs|
  {
    if evs != [] {
      OneRequestInFlight(Step(s, evs[0]), evs[1..]);
    }
  }

  // ---------------------------------------------------------------------------
  // The component

  /** The `RequestFeature` component's form state; `db` is the store it writes to. */
  class Controller {
    var form: Fields
    var isSubmitting: bool
    var status: Option<Status>
    /** The record of the store call being awaited, if any. */
    var pending: Option<Doc>
    const db: Database

    function Snapshot(): State
      reads this
    {
      State(form, isSubmitting, status, pending)
    }

    constructor (db: Database)
      ensures Snapshot() == Initial && Valid(Snapshot()) && this.db == db
    {
      form := Blank;
      isSubmitting := false;
      status := None;
      pending := None;
      this.db := db;
    }

    /** `handleChange`: the input `id` now holds `value`. */
    method HandleChange(id: FieldId, value: string)
      requires Valid(Snapshot())
      modifies this
      ensures Valid(Snapshot())
      ensures form == Update(old(form), id, value)
      ensures isSubmitting == old(isSubmitting) && status == old(status) && pending == old(pending)
      ensures Snapshot() == Step(old(Snapshot()), Edit(id, value))
    {
      form := Update(form, id, value);
    }

    /**
     * `handleSubmit` up to its `await`.  The submit button is
     * `disabled={isSubmitting}`, so the handler runs only when the flag is down.
     */
    method HandleSubmit(createdAt: string) returns (issued: bool)
      requires Valid(Snapshot()) && !isSubmitting
      modifies this, db
      ensures Valid(Snapshot())
      ensures issued == Filled(old(form))
      ensures !issued ==>
        && status == Some(Status(false, MissingFields))
        && form == old(form) && !isSubmitting && pending == None
        && db.Requested(Submissions) == old(db.Requested(Submissions))
      ensures issued ==>
        && isSubmitting && pending == Some(Record(old(form), createdAt))
        && form == old(form) && status == old(status)
        && db.Requested(Submissions) == old(db.Requested(Submissions)) + [Record(old(form), createdAt)]
      ensures forall other :: other != Submissions ==> db.Requested(other) == old(db.Requested(other))
      ensures Snapshot() == Step(old(Snapshot()), Press(createdAt))
      ensures db.Requested(Submissions) == old(db.Requested(Submissions)) + Issued(old(Snapshot()), Press(createdAt))
    {
      if form.name == "" || form.email == "" || form.feature == "" {
        status := Some(Status(false, MissingFields));
        return false;
      }
      isSubmitting := true;
      var doc := Record(form, createdAt);
      db.AddDoc(Submissions, doc);
      pending := Some(doc);
      return true;
    }

    /** The rest of `handleSubmit`, once the awaited store call settles with outcome `ok`. */
    method Resolve(ok: bool)
      requires Valid(Snapshot()) && isSubmitting
      modifies this
      ensures Valid(Snapshot())
      ensures !isSubmitting && pending == None
      ensures ok ==> status == Some(Status(true, Sent)) && form == Blank
      ensures !ok ==> status == Some(Status(false, SendFailed)) && form == old(form)
      ensures Snapshot() == Step(old(Snapshot()), Settle(ok))
    {
      if ok {
        status := Some(Status(true, Sent));
        form := Blank;
      } else {
        status := Some(Status(false, SendFailed));
      }
      isSubmitting := false;
      pending := None;
    }

    /** A whole submission whose store call, if one is made, settles with outcome `storeOk`. */
    method Submit(createdAt: string, storeOk: bool)
      requires Valid(Snapshot()) && !isSubmitting
      modifies this, db
      ensures Valid(Snapshot()) && !isSubmitting
      ensures !Filled(old(form)) ==>
        && status == Some(Status(false, MissingFields)) && form == old(form)
        && db.Requested(Submissions) == old(db.Requested(Submissions))
      ensures Filled(old(form)) ==>
        db.Requested(Submissions) == old(db.Requested(Submissions)) + [Record(old(form), createdAt)]
      ensures Filled(old(form)) && storeOk ==> status == Some(Status(true, Sent)) && form == Blank
      ensures Filled(old(form)) && !storeOk ==> status == Some(Status(false, SendFailed)) && form == old(form)
      ensures forall other :: other != Submissions ==> db.Requested(other) == old(db.Requested(other))
      ensures Snapshot() == Run(old(Snapshot()), [Press(createdAt), Settle(storeOk)])
    {
      ghost var s0 := Snapshot();
      var issued := HandleSubmit(createdAt);
      if issued {
        Resolve(storeOk);
      }
      ghost var evs := [Press(createdAt), Settle(storeOk)];
      assert evs[1..] == [Settle(storeOk)] && [Settle(storeOk)][1..] == [];
      ghost var t1 := Step(s0, evs[0]);
      assert Run(t1, [Settle(storeOk)]) == Run(Step(t1, Settle(storeOk)), []);
      assert Run(s0, evs) == Run(t1, [Settle(storeOk)]);
    }
  }
}
