/**
 * The create / edit event form (`CreateEventComponent`): the invitee list editor,
 * the date check, the submit and confirm flow, the requests it builds and the
 * invitee calls an edit issues.
 *
 * The form controls are fields holding their current values; whether Angular's
 * `required` / `maxLength` validators pass is the field `fieldsValid`, and the
 * `pastDate` error the component sets itself is the field `pastDate`. Service calls
 * are split in two: the method that issues a call returns what was sent, and an
 * `On...` method applies the subscriber's callback to the answer.
 */
module CreateEvent {
  import opened EventModel
  import opened Text
  import opened Email
  import opened Sequences
  import LocalStorage

  const EmptyEmailError: string := "Please enter an email address"
  const InvalidEmailError: string := "Please enter a valid email address"
  const DuplicateEmailError: string := "This email has already been added"
  const CreatedMessage: string := "Event created successfully!"
  const CreateFailedError: string := "Failed to create event. Please try again."
  const UpdatedMessage: string := "Event updated successfully!"
  const UpdateFailedError: string := "Failed to update event. Please try again."
  const InviteesFailedError: string := "Event updated, but failed to update some invitees."
  const LoadFailedError: string := "Failed to load event details"

  /** What a submit step handed to the event service. */
  datatype Sent =
    | NothingSent
    | CreateSent(request: CreateEventRequest)
    | UpdateSent(eventId: string, update: UpdateEventRequest)

  /** One invitee call of an edit, issued for the edited event. */
  datatype InviteeCall = AddCall(eventId: string, email: string) | RemoveCall(eventId: string, email: string)

  /** `value || undefined` for a text control: the empty string becomes absent. */
  function OrAbsent(value: string): (r: Option<string>)
    ensures r.None? <==> value == ""
    ensures r.Some? ==> r.value == value
  {
    if value == "" then None else Some(value)
  }

  /**
   * The request `submitEvent` sends: blank texts become absent, an empty invitee list
   * is left out, and the event time is not part of it.
   */
  function CreateRequestFrom(title: string, date: DateValue, location: string, description: string,
                             invitees: seq<string>): (r: CreateEventRequest)
    ensures r.title == title && r.date == date
    ensures r.location == OrAbsent(location) && r.description == OrAbsent(description)
    ensures r.invitees.None? <==> invitees == []
    ensures r.invitees.Some? ==> r.invitees.value == invitees
  {
    CreateEventRequest(title, date, OrAbsent(location), OrAbsent(description),
                       if |invitees| > 0 then Some(invitees) else None)
  }

  /** The request `updateEvent` sends: blank texts become absent; invitees are not part of it. */
  function UpdateRequestFrom(title: string, date: DateValue, location: string, description: string)
    : (r: UpdateEventRequest)
    ensures r.title == title && r.date == date
    ensures r.location == OrAbsent(location) && r.description == OrAbsent(description)
  {
    UpdateEventRequest(title, date, OrAbsent(location), OrAbsent(description))
  }

  /** The e-mails an edit adds: those now listed that were not listed when the form was loaded. */
  function AddedInvitees(current: seq<string>, original: seq<string>): (r: seq<string>)
    ensures IsSubsequence(r, current)
    ensures forall y :: y in r <==> y in current && y !in original
    ensures forall y :: multiset(r)[y] == if y in original then 0 else multiset(current)[y]
  {
    Minus(current, original)
  }

  /** The e-mails an edit removes: those listed at load time that are no longer listed. */
  function RemovedInvitees(current: seq<string>, original: seq<string>): (r: seq<string>)
    ensures IsSubsequence(r, original)
    ensures forall y :: y in r <==> y in original && y !in current
    ensures forall y :: multiset(r)[y] == if y in current then 0 else multiset(original)[y]
  {
    Minus(original, current)
  }

  /** `!id`: no event id, or the empty one. */
  predicate IsFalsyId(id: Option<string>) {
    id.None? || id.value == ""
  }

  /**
   * The calls `handleInviteeUpdates` issues for event `id`: one add call per added
   * e-mail, in order, then one remove call per removed e-mail. An e-mail gets an add
   * call exactly when it is listed now and was not at load time, and a remove call
   * exactly when it was listed at load time and no longer is.
   */
  function InviteeCalls(id: string, current: seq<string>, original: seq<string>): (calls: seq<InviteeCall>)
    ensures var added := AddedInvitees(current, original);
      var removed := RemovedInvitees(current, original);
      && |calls| == |added| + |removed|
      && (forall i :: 0 <= i < |added| ==> calls[i] == AddCall(id, added[i]))
      && (forall i :: 0 <= i < |removed| ==> calls[|added| + i] == RemoveCall(id, removed[i]))
    ensures forall e :: AddCall(id, e) in calls <==> e in current && e !in original
    ensures forall e :: RemoveCall(id, e) in calls <==> e in original && e !in current
    ensures forall c :: c in calls ==> c.eventId == id
  {
    AddCalls(id, AddedInvitees(current, original)) + RemoveCalls(id, RemovedInvitees(current, original))
  }

  /** One add call for event `id` per e-mail, in order. */
  function AddCalls(id: string, emails: seq<string>): (r: seq<InviteeCall>)
    ensures |r| == |emails|
    ensures forall i :: 0 <= i < |r| ==> r[i] == AddCall(id, emails[i])
    ensures forall e :: AddCall(id, e) in r <==> e in emails
    ensures forall c :: c in r ==> c.AddCall? && c.eventId == id
  {
    if emails == [] then [] else [AddCall(id, emails[0])] + AddCalls(id, emails[1..])
  }

  /** One remove call for event `id` per e-mail, in order. */
  function RemoveCalls(id: string, emails: seq<string>): (r: seq<InviteeCall>)
    ensures |r| == |emails|
    ensures forall i :: 0 <= i < |r| ==> r[i] == RemoveCall(id, emails[i])
    ensures forall e :: RemoveCall(id, e) in r <==> e in emails
    ensures forall c :: c in r ==> c.RemoveCall? && c.eventId == id
  {
    if emails == [] then [] else [RemoveCall(id, emails[0])] + RemoveCalls(id, emails[1..])
  }

  /** The `forEach` loops of `handleInviteeUpdates`: the add calls, then the remove calls. */
  method BuildCalls(id: string, added: seq<string>, removed: seq<string>) returns (calls: seq<InviteeCall>)
    ensures calls == AddCalls(id, added) + RemoveCalls(id, removed)
  {
    var adds := [];
    for i := 0 to |added|
      invariant |adds| == i
      invariant forall j :: 0 <= j < i ==> adds[j] == AddCall(id, added[j])
    {
      adds := adds + [AddCall(id, added[i])];
    }
    assert adds == AddCalls(id, added);
    var removes := [];
    for i := 0 to |removed|
      invariant |removes| == i
      invariant forall j :: 0 <= j < i ==> removes[j] == RemoveCall(id, removed[j])
    {
      removes := removes + [RemoveCall(id, removed[i])];
    }
    assert removes == RemoveCalls(id, removed);
    calls := adds + removes;
  }

  function Elements(s: seq<string>): set<string> {
    set x | x in s
  }

  /**
   * The invitee diff is the two set differences, each side disjoint from the list it
   * is taken against, and applying it to the loaded list yields the same set of
   * e-mails as the current list.
   */
  lemma InviteeDiffReconstructs(current: seq<string>, original: seq<string>)
    ensures Elements(AddedInvitees(current, original)) == Elements(current) - Elements(original)
    ensures Elements(RemovedInvitees(current, original)) == Elements(original) - Elements(current)
    ensures Elements(AddedInvitees(current, original)) !! Elements(original)
    ensures Elements(RemovedInvitees(current, original)) !! Elements(current)
    ensures (Elements(original) - Elements(RemovedInvitees(current, original)))
            + Elements(AddedInvitees(current, original)) == Elements(current)
  {
    AddedElements(current, original);
    RemovedElements(current, original);
    RebuildFromDifferences(Elements(current), Elements(original));
  }

  lemma AddedElements(current: seq<string>, original: seq<string>)
    ensures Elements(AddedInvitees(current, original)) == Elements(current) - Elements(original)
  {
    var added := AddedInvitees(current, original);
    assert forall y :: y in Elements(added) <==> y in current && y !in original;
  }

  lemma RemovedElements(current: seq<string>, original: seq<string>)
    ensures Elements(RemovedInvitees(current, original)) == Elements(original) - Elements(current)
  {
    var removed := RemovedInvitees(current, original);
    assert forall y :: y in Elements(removed) <==> y in original && y !in current;
  }

  /** Dropping `o - c` from `o` and adding `c - o` gives `c`. */
  lemma RebuildFromDifferences(c: set<string>, o: set<string>)
    ensures (o - (o - c)) + (c - o) == c
  {
    assert forall y :: y in (o - (o - c)) + (c - o) <==> y in c;
  }

  /** With duplicate-free lists, each e-mail gets at most one add call and one remove call. */
  lemma DiffHasNoDuplicates(current: seq<string>, original: seq<string>)
    requires NoDuplicates(current) && NoDuplicates(original)
    ensures NoDuplicates(AddedInvitees(current, original))
    ensures NoDuplicates(RemovedInvitees(current, original))
  {
    SubsequenceNoDuplicates(AddedInvitees(current, original), current);
    SubsequenceNoDuplicates(RemovedInvitees(current, original), original);
  }

  /** An edit that leaves the loaded list as it was issues no invitee calls. */
  lemma UnchangedListNoCalls(invitees: seq<string>)
    ensures AddedInvitees(invitees, invitees) == []
    ensures RemovedInvitees(invitees, invitees) == []
  {
    MinusSelf(invitees);
  }

  /**
   * The event the local store creates from a submitted form: no invitees field when
   * the list was empty, otherwise the list in order with status "invited", and no
   * location or description when those were left blank. Loading it back for editing
   * gives the same e-mail list.
   */
  lemma SubmittedEventShape(title: string, date: DateValue, location: string, description: string,
                            invitees: seq<string>, user: string, id: string, today: Day)
    ensures var e := LocalStorage.NewEvent(CreateRequestFrom(title, date, location, description, invitees), user, id, today);
      && (e.invitees.None? <==> invitees == [])
      && (e.invitees.Some? ==>
            && Emails(e.invitees.value) == invitees
            && (forall i :: 0 <= i < |e.invitees.value| ==> e.invitees.value[i].status == InvitedStatus))
      && (e.location.None? <==> location == "")
      && (e.description.None? <==> description == "")
  {
    if invitees != [] {
      LocalStorage.InviteeEmailsRoundTrip(invitees);
    }
  }

  class CreateEventComponent {
    // form controls
    var title: string
    var date: DateValue
    var time: string
    var location: string
    var description: string
    /** Angular's required / maxLength validators all pass. */
    var fieldsValid: bool
    /** The date control carries the `pastDate` error. */
    var pastDate: bool
    /** The invalid controls have been marked as touched. */
    var touched: bool

    var isSubmitting: bool
    var error: Option<string>
    var successMessage: Option<string>
    var isEditMode: bool
    var eventId: Option<string>
    var originalInvitees: seq<string>

    var inviteeEmail: string
    var invitees: seq<string>
    var inviteeError: Option<string>
    var showConfirmDialog: bool

    constructor ()
      ensures title == "" && date == None && time == "" && location == "" && description == ""
      ensures !fieldsValid && !pastDate && !touched
      ensures !isSubmitting && error == None && successMessage == None
      ensures !isEditMode && eventId == None && originalInvitees == []
      ensures inviteeEmail == "" && invitees == [] && inviteeError == None && !showConfirmDialog
    {
      title, date, time, location, description := "", None, "", "", "";
      fieldsValid, pastDate, touched := false, false, false;
      isSubmitting, error, successMessage := false, None, None;
      isEditMode, eventId, originalInvitees := false, None, [];
      inviteeEmail, invitees, inviteeError, showConfirmDialog := "", [], None, false;
    }

    /** `eventForm.invalid`. */
    predicate FormInvalid()
      reads this
    {
      !fieldsValid || pastDate
    }

    /** `!this.eventId`. */
    predicate HasNoEventId()
      reads this
    {
      IsFalsyId(eventId)
    }

    /**
     * `ngOnInit`'s route handler: a non-empty `id` parameter puts the form in edit
     * mode and asks for that event's details; any other route leaves it in create mode.
     */
    method OnRouteParams(id: Option<string>) returns (requested: Option<string>)
      modifies this`isEditMode, this`eventId
      ensures id.Some? && id.value != "" ==> isEditMode && eventId == id && requested == id
      ensures !(id.Some? && id.value != "") ==>
        requested == None && isEditMode == old(isEditMode) && eventId == old(eventId)
      ensures requested.Some? ==> !HasNoEventId()
    {
      if id.Some? && id.value != "" {
        isEditMode := true;
        eventId := id;
        requested := id;
      } else {
        requested := None;
      }
    }

    /**
     * The user sets the date control: its validators run again, which drops the
     * `pastDate` error `validateDate` may have set.
     */
    method SetDate(d: DateValue, valid: bool)
      modifies this`date, this`pastDate, this`fieldsValid
      ensures date == d && !pastDate && fieldsValid == valid
    {
      date, pastDate, fieldsValid := d, false, valid;
    }

    /**
     * `loadEventDetails`, success: the form is filled and the loaded list is remembered.
     * `patchValue` runs the validators again: the `pastDate` error goes and `valid` is
     * their verdict on the loaded values.
     */
    method OnEventDetailsLoaded(e: Event, valid: bool)
      modifies this`title, this`date, this`time, this`location, this`description
      modifies this`invitees, this`originalInvitees, this`pastDate, this`fieldsValid
      ensures !pastDate && fieldsValid == valid
      ensures title == e.title && date == e.date
      ensures time == (if e.time.Some? then e.time.value else "")
      ensures location == (if e.location.Some? then e.location.value else "")
      ensures description == (if e.description.Some? then e.description.value else "")
      ensures e.invitees.Some? ==> invitees == Emails(e.invitees.value) && originalInvitees == invitees
      ensures e.invitees.None? ==> invitees == old(invitees) && originalInvitees == old(originalInvitees)
    {
      title := e.title;
      date := e.date;
      time := if e.time.Some? then e.time.value else "";
      location := if e.location.Some? then e.location.value else "";
      description := if e.description.Some? then e.description.value else "";
      pastDate, fieldsValid := false, valid;
      if e.invitees.Some? {
        invitees := Emails(e.invitees.value);
        originalInvitees := invitees;
      }
    }

    /** `loadEventDetails`, error. */
    method OnEventDetailsFailed()
      modifies this`error
      ensures error == Some(LoadFailedError)
    {
      error := Some(LoadFailedError);
    }

    /**
     * `addInvitee`: the trimmed input is rejected when empty, then when it is not a
     * valid address, then when it is already listed; the list is untouched on each
     * rejection. Otherwise it is appended and the input cleared.
     */
    method AddInvitee()
      modifies this`inviteeError, this`invitees, this`inviteeEmail
      ensures var email := Trim(old(inviteeEmail));
        if email == "" then
          inviteeError == Some(EmptyEmailError) && invitees == old(invitees) && inviteeEmail == old(inviteeEmail)
        else if !IsValidEmail(email) then
          inviteeError == Some(InvalidEmailError) && invitees == old(invitees) && inviteeEmail == old(inviteeEmail)
        else if email in old(invitees) then
          inviteeError == Some(DuplicateEmailError) && invitees == old(invitees) && inviteeEmail == old(inviteeEmail)
        else
          inviteeError == None && invitees == old(invitees) + [email] && inviteeEmail == ""
      ensures NoDuplicates(old(invitees)) ==> NoDuplicates(invitees)
      ensures inviteeError == Some(EmptyEmailError) <==> AllWhitespace(old(inviteeEmail))
    {
      inviteeError := None;
      var email := Trim(inviteeEmail);
      if email == "" {
        inviteeError := Some(EmptyEmailError);
        return;
      }
      if !IsValidEmail(email) {
        inviteeError := Some(InvalidEmailError);
        return;
      }
      if email in invitees {
        inviteeError := Some(DuplicateEmailError);
        return;
      }
      invitees := invitees + [email];
      inviteeEmail := "";
    }

    /** `removeInvitee`: every occurrence of the e-mail goes, the rest keep their order. */
    method RemoveInvitee(email: string)
      modifies this`invitees
      ensures invitees == Without(old(invitees), email)
      ensures email !in invitees
      ensures email !in old(invitees) ==> invitees == old(invitees)
      ensures NoDuplicates(old(invitees)) ==> NoDuplicates(invitees)
    {
      if NoDuplicates(invitees) {
        SubsequenceNoDuplicates(Without(invitees, email), invitees);
      }
      invitees := Without(invitees, email);
    }

    /** `validateDate`: flags a date before today; never clears the flag. */
    method ValidateDate(today: Day)
      modifies this`pastDate
      ensures pastDate == (old(pastDate) || (date.Some? && date.value < today))
    {
      if date.Some? {
        if date.value < today {
          pastDate := true;
        }
      }
    }

    /**
     * What the dispatch in `onSubmit` and `confirmSubmit` sends, read on the current
     * state: the create request in create mode, the update for the event id in edit
     * mode, and nothing in edit mode without an id.
     */
    function Dispatched(): (r: Sent)
      reads this
      ensures r.CreateSent? <==> !isEditMode
      ensures r == NothingSent <==> isEditMode && HasNoEventId()
      ensures r.CreateSent? ==> r.request == CreateRequestFrom(title, date, location, description, invitees)
      ensures r.UpdateSent? ==>
        (r.eventId == eventId.value && r.eventId != "" && r.update == UpdateRequestFrom(title, date, location, description))
    {
      if isEditMode then
        if HasNoEventId() then NothingSent
        else UpdateSent(eventId.value, UpdateRequestFrom(title, date, location, description))
      else CreateSent(CreateRequestFrom(title, date, location, description, invitees))
    }

    /** `submitEvent`: marks the form as submitting and sends the create request. */
    method SubmitEvent() returns (sent: Sent)
      modifies this`isSubmitting, this`error
      ensures sent == CreateSent(CreateRequestFrom(title, date, location, description, invitees))
      ensures isSubmitting && error == None
    {
      isSubmitting := true;
      error := None;
      sent := CreateSent(CreateRequestFrom(title, date, location, description, invitees));
    }

    /** `updateEvent`: sends nothing without an event id. */
    method UpdateEvent() returns (sent: Sent)
      modifies this`isSubmitting, this`error
      ensures HasNoEventId() ==> sent == NothingSent && isSubmitting == old(isSubmitting) && error == old(error)
      ensures !HasNoEventId() ==>
        sent == UpdateSent(eventId.value, UpdateRequestFrom(title, date, location, description)) &&
        isSubmitting && error == None
    {
      if HasNoEventId() {
        return NothingSent;
      }
      isSubmitting := true;
      error := None;
      sent := UpdateSent(eventId.value, UpdateRequestFrom(title, date, location, description));
    }

    method Dispatch() returns (sent: Sent)
      modifies this`isSubmitting, this`error
      ensures sent == Dispatched()
      ensures sent != NothingSent ==> isSubmitting && error == None
      ensures sent == NothingSent ==> isSubmitting == old(isSubmitting) && error == old(error)
    {
      if isEditMode {
        sent := UpdateEvent();
      } else {
        sent := SubmitEvent();
      }
    }

    /**
     * `onSubmit`: an invalid form only gets its controls marked; a date before today
     * only gets flagged; with invitees listed the confirm dialog opens; otherwise the
     * update (edit mode) or the create request goes out.
     */
    method OnSubmit(today: Day) returns (sent: Sent)
      modifies this`touched, this`pastDate, this`showConfirmDialog, this`isSubmitting, this`error
      ensures old(FormInvalid()) ==>
        && sent == NothingSent && touched
        && pastDate == old(pastDate) && showConfirmDialog == old(showConfirmDialog)
        && isSubmitting == old(isSubmitting) && error == old(error)
      ensures !old(FormInvalid()) ==> touched == old(touched)
      ensures !old(FormInvalid()) ==> (pastDate <==> date.Some? && date.value < today)
      ensures !old(FormInvalid()) && pastDate ==>
        && sent == NothingSent && showConfirmDialog == old(showConfirmDialog)
        && isSubmitting == old(isSubmitting) && error == old(error)
      ensures !old(FormInvalid()) && !pastDate && |invitees| > 0 ==>
        && sent == NothingSent && showConfirmDialog
        && isSubmitting == old(isSubmitting) && error == old(error)
      ensures !old(FormInvalid()) && !pastDate && |invitees| == 0 ==>
        && sent == old(Dispatched()) && showConfirmDialog == old(showConfirmDialog)
        && (sent != NothingSent ==> isSubmitting && error == None)
      ensures sent.CreateSent? ==> !isEditMode && sent.request.invitees.None?
    {
      if FormInvalid() {
        touched := true;
        return NothingSent;
      }
      ValidateDate(today);
      if pastDate {
        return NothingSent;
      }
      if |invitees| > 0 {
        showConfirmDialog := true;
        sent := NothingSent;
      } else {
        sent := Dispatch();
      }
    }

    /** `cancelConfirm`. */
    method CancelConfirm()
      modifies this`showConfirmDialog
      ensures !showConfirmDialog
    {
      showConfirmDialog := false;
    }

    /** `confirmSubmit`: closes the dialog and sends the update or the create request. */
    method ConfirmSubmit() returns (sent: Sent)
      modifies this`showConfirmDialog, this`isSubmitting, this`error
      ensures !showConfirmDialog
      ensures sent == old(Dispatched())
      ensures sent != NothingSent ==> isSubmitting && error == None
      ensures sent == NothingSent ==> isSubmitting == old(isSubmitting) && error == old(error)
    {
      showConfirmDialog := false;
      sent := Dispatch();
    }

    /** The create request's answer: a success message, or the error and submitting cleared. */
    method OnCreateResponse(ok: bool, serverError: string)
      modifies this`successMessage, this`error, this`isSubmitting
      ensures ok ==> successMessage == Some(CreatedMessage) && error == old(error) && isSubmitting == old(isSubmitting)
      ensures !ok ==> successMessage == old(successMessage) && !isSubmitting
      ensures !ok ==> error == Some(if serverError != "" then serverError else CreateFailedError)
    {
      if ok {
        successMessage := Some(CreatedMessage);
      } else {
        error := Some(if serverError != "" then serverError else CreateFailedError);
        isSubmitting := false;
      }
    }

    /**
     * `handleInviteeUpdates`: one add call per e-mail now listed that was not listed
     * at load time, then one remove call per e-mail no longer listed; none without an
     * event id.
     */
    method HandleInviteeUpdates() returns (calls: seq<InviteeCall>)
      ensures HasNoEventId() ==> calls == []
      ensures !HasNoEventId() ==> calls == InviteeCalls(eventId.value, invitees, originalInvitees)
    {
      if HasNoEventId() {
        return [];
      }
      var id := eventId.value;
      var added := AddedInvitees(invitees, originalInvitees);
      var removed := RemovedInvitees(invitees, originalInvitees);
      calls := BuildCalls(id, added, removed);
    }

    /** The update request's answer: on success the invitee calls go out. */
    method OnUpdateResponse(ok: bool, serverError: string) returns (calls: seq<InviteeCall>)
      modifies this`error, this`isSubmitting
      ensures ok ==> error == old(error) && isSubmitting == old(isSubmitting)
      ensures ok && HasNoEventId() ==> calls == []
      ensures ok && !HasNoEventId() ==> calls == InviteeCalls(eventId.value, invitees, originalInvitees)
      ensures !ok ==> calls == [] && !isSubmitting
      ensures !ok ==> error == Some(if serverError != "" then serverError else UpdateFailedError)
    {
      if ok {
        calls := HandleInviteeUpdates();
      } else {
        error := Some(if serverError != "" then serverError else UpdateFailedError);
        isSubmitting := false;
        calls := [];
      }
    }

    /** All invitee calls settled: a success message, or a partial-failure error. */
    method OnInviteeUpdatesSettled(ok: bool)
      modifies this`successMessage, this`error, this`isSubmitting
      ensures ok ==> successMessage == Some(UpdatedMessage) && error == old(error) && isSubmitting == old(isSubmitting)
      ensures !ok ==> successMessage == old(successMessage) && error == Some(InviteesFailedError) && !isSubmitting
    {
      if ok {
        successMessage := Some(UpdatedMessage);
      } else {
        error := Some(InviteesFailedError);
        isSubmitting := false;
      }
    }
  }
}
