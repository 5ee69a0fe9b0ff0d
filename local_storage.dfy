/**
 * The local, storage-backed stand-in for the event backend (`LocalStorageService`).
 *
 * The browser's key-value storage is modelled by three fields of the service, one per
 * key; the whole event collection is read from and written back to the 'app_events'
 * key by every operation. The clock and the random part of generated ids are
 * parameters: `today` is the current day and `freshId` / `sampleIds` are the ids that
 * `generateId` would have produced.
 */
module LocalStorage {
  import opened EventModel
  import opened Text
  import opened Sequences

  datatype StoreError = NotFound | Forbidden

  /** The message of the `Error` the service throws. */
  function ErrorMessage(e: StoreError): string {
    match e
    case NotFound => "Event not found"
    case Forbidden => "Only the organizer can delete this event"
  }

  datatype Result<+T> = Ok(value: T) | Err(error: StoreError)

  /** The `{ success: true }` answer, or the error thrown instead. */
  datatype Outcome = Success | Failure(error: StoreError)

  // ---------------------------------------------------------------------------
  // Reading the stored collection

  /** `getStoredEvents`: the value under the events key, an absent key reading as []. */
  function StoredEvents(key: Option<seq<Event>>): (r: seq<Event>)
    ensures key.None? ==> r == []
    ensures key.Some? ==> r == key.value
  {
    if key.None? then [] else key.value
  }

  // ---------------------------------------------------------------------------
  // Status derived from the date

  /**
   * `getEventStatus`: 'upcoming' exactly when the event's day is today or later; an
   * empty or unparseable date is never upcoming.
   */
  function EventStatusOf(date: DateValue, today: Day): (s: EventStatus)
    ensures s == Upcoming <==> date.Some? && date.value >= today
  {
    if date.Some? && date.value >= today then Upcoming else Past
  }

  /** As the days go by, a past event never becomes upcoming again. */
  lemma PastStaysPast(date: DateValue, today: Day, later: Day)
    requires today <= later
    requires EventStatusOf(date, today) == Past
    ensures EventStatusOf(date, later) == Past
  {
  }

  /** The stored events with `status` recomputed for `today` and nothing else changed. */
  function WithStatus(events: seq<Event>, today: Day): (r: seq<Event>)
    ensures |r| == |events|
    ensures forall i :: 0 <= i < |r| ==>
      r[i] == events[i].(status := Some(EventStatusOf(events[i].date, today)))
  {
    if events == [] then []
    else [events[0].(status := Some(EventStatusOf(events[0].date, today)))] + WithStatus(events[1..], today)
  }

  // ---------------------------------------------------------------------------
  // Listing by role

  predicate IsOrganizedBy(e: Event, user: string) {
    e.organizerId == Some(user)
  }

  /** Some invitee's e-mail contains the user name as a substring (`email.includes(user)`). */
  predicate MentionsUser(e: Event, user: string) {
    e.invitees.Some? && exists inv :: inv in e.invitees.value && Includes(inv.email, user)
  }

  /** The attendee test of `getEventsByRole`. */
  predicate IsAttendedBy(e: Event, user: string) {
    !IsOrganizedBy(e, user) && (MentionsUser(e, user) || e.role == Some(Attendee))
  }

  predicate MatchesRole(e: Event, role: Role, user: string) {
    match role
    case Organizer => IsOrganizedBy(e, user)
    case Attendee => IsAttendedBy(e, user)
  }

  /** The role filter: a subsequence of the input holding exactly its matching events. */
  function FilterByRole(events: seq<Event>, role: Role, user: string): (r: seq<Event>)
    ensures IsSubsequence(r, events)
    ensures forall e :: e in r <==> e in events && MatchesRole(e, role, user)
  {
    if events == [] then []
    else if MatchesRole(events[0], role, user) then [events[0]] + FilterByRole(events[1..], role, user)
    else FilterByRole(events[1..], role, user)
  }

  /**
   * What `getEventsByRole` answers for the stored `events`: the events with their
   * status recomputed, in order, keeping exactly those that match the role.
   */
  function EventsByRole(events: seq<Event>, role: Role, user: string, today: Day): (r: seq<Event>)
    ensures IsSubsequence(r, WithStatus(events, today))
    ensures forall e :: e in r <==> e in WithStatus(events, today) && MatchesRole(e, role, user)
  {
    FilterByRole(WithStatus(events, today), role, user)
  }

  /** Every listed event carries the status derived from its date. */
  lemma ListedStatusIsCurrent(events: seq<Event>, role: Role, user: string, today: Day)
    ensures forall e :: e in EventsByRole(events, role, user, today) ==>
      e.status == Some(EventStatusOf(e.date, today))
  {
    forall e | e in EventsByRole(events, role, user, today)
      ensures e.status == Some(EventStatusOf(e.date, today))
    {
      var ws := WithStatus(events, today);
      var i :| 0 <= i < |ws| && ws[i] == e;
      assert e == events[i].(status := Some(EventStatusOf(events[i].date, today)));
    }
  }

  /** The organizer list holds exactly the stored events the user organizes, status recomputed. */
  lemma OrganizerListExact(events: seq<Event>, user: string, today: Day)
    ensures forall e :: e in EventsByRole(events, Organizer, user, today) <==>
      exists i :: 0 <= i < |events| && IsOrganizedBy(events[i], user) &&
        e == events[i].(status := Some(EventStatusOf(events[i].date, today)))
  {
    var ws := WithStatus(events, today);
    forall e ensures e in EventsByRole(events, Organizer, user, today) <==>
      exists i :: 0 <= i < |events| && IsOrganizedBy(events[i], user) &&
        e == events[i].(status := Some(EventStatusOf(events[i].date, today)))
    {
      if e in EventsByRole(events, Organizer, user, today) {
        var i :| 0 <= i < |ws| && ws[i] == e;
        assert IsOrganizedBy(events[i], user);
      }
      if exists i :: (0 <= i < |events| && IsOrganizedBy(events[i], user) &&
        e == events[i].(status := Some(EventStatusOf(events[i].date, today))))
      {
        var i :| 0 <= i < |events| && IsOrganizedBy(events[i], user) &&
          e == events[i].(status := Some(EventStatusOf(events[i].date, today)));
        assert ws[i] == e;
      }
    }
  }

  /** No event is in both the organizer and the attendee list of the same user. */
  lemma RoleListsDisjoint(events: seq<Event>, user: string, today: Day)
    ensures forall e :: e in EventsByRole(events, Organizer, user, today) ==>
      e !in EventsByRole(events, Attendee, user, today)
  {
  }

  /** Together the two lists never hold more events than are stored. */
  lemma {:induction false} RoleListsFitStore(events: seq<Event>, user: string)
    ensures |FilterByRole(events, Organizer, user)| + |FilterByRole(events, Attendee, user)| <= |events|
  {
    if events != [] {
      RoleListsFitStore(events[1..], user);
    }
  }

  // ---------------------------------------------------------------------------
  // Lookup by id

  /** The index of the first event with the given id (`find` / `findIndex`). */
  function FirstIndexOf(events: seq<Event>, id: string): (r: Option<nat>)
    ensures r.Some? ==> r.value < |events| && events[r.value].id == id
    ensures r.Some? ==> forall j :: 0 <= j < r.value ==> events[j].id != id
    ensures r.None? <==> forall j :: 0 <= j < |events| ==> events[j].id != id
  {
    if events == [] then None
    else if events[0].id == id then Some(0)
    else
      match FirstIndexOf(events[1..], id)
      case None => None
      case Some(k) => Some(k + 1)
  }

  /**
   * The first stored record with the id, exactly as stored, or `NotFound` when no
   * record has it.
   */
  function FindEvent(events: seq<Event>, id: string): (r: Result<Event>)
    ensures r.Err? <==> forall e :: e in events ==> e.id != id
    ensures r.Err? ==> r.error == NotFound && ErrorMessage(r.error) == "Event not found"
    ensures r.Ok? ==> exists k :: (0 <= k < |events| && events[k] == r.value && r.value.id == id &&
      forall j :: 0 <= j < k ==> events[j].id != id)
  {
    match FirstIndexOf(events, id)
    case None => Err(NotFound)
    case Some(k) => Ok(events[k])
  }

  predicate UniqueIds(events: seq<Event>) {
    forall i, j :: 0 <= i < j < |events| ==> events[i].id != events[j].id
  }

  // ---------------------------------------------------------------------------
  // Creation

  /** Turns the request's e-mail strings, in order, into invitees with status "invited". */
  function ToInvitees(emails: seq<string>): (r: seq<Invitee>)
    ensures |r| == |emails|
    ensures forall i :: 0 <= i < |r| ==> r[i] == Invitee(emails[i], InvitedStatus)
  {
    if emails == [] then [] else [Invitee(emails[0], InvitedStatus)] + ToInvitees(emails[1..])
  }

  /** Reading the e-mails back from the created invitees gives the request's list. */
  lemma InviteeEmailsRoundTrip(emails: seq<string>)
    ensures Emails(ToInvitees(emails)) == emails
  {
  }

  /**
   * The record `createEvent` builds. The request type has no time, and the form never
   * sends one, so the new event has none.
   */
  function NewEvent(data: CreateEventRequest, currentUser: string, freshId: string, today: Day): (e: Event)
    ensures e.id == freshId && e.title == data.title && e.date == data.date && e.time.None?
    ensures e.location == data.location && e.description == data.description
    ensures e.organizerId == Some(currentUser) && e.role == Some(Organizer)
    ensures e.status == Some(EventStatusOf(data.date, today)) && e.attendanceStatus.None?
    ensures e.invitees.None? <==> data.invitees.None?
    ensures data.invitees.Some? ==> e.invitees == Some(ToInvitees(data.invitees.value))
    ensures IsOrganizedBy(e, currentUser)
  {
    Event(
      id := freshId,
      title := data.title,
      date := data.date,
      time := None,
      location := data.location,
      description := data.description,
      organizerId := Some(currentUser),
      role := Some(Organizer),
      status := Some(EventStatusOf(data.date, today)),
      attendanceStatus := None,
      invitees := if data.invitees.None? then None else Some(ToInvitees(data.invitees.value)))
  }

  /** An event created under a fresh id is what a following lookup of that id finds. */
  lemma {:induction false} LookupAfterCreate(before: seq<Event>, created: Event)
    requires forall e :: e in before ==> e.id != created.id
    ensures FirstIndexOf(before + [created], created.id) == Some(|before|)
  {
    var after := before + [created];
    assert forall j :: 0 <= j < |before| ==> after[j] == before[j];
    assert after[|before|] == created;
  }

  /** A created event appears, status recomputed, at the end of its organizer's list. */
  lemma CreatedEventListedLast(before: seq<Event>, data: CreateEventRequest, user: string, id: string, today: Day)
    ensures var list := EventsByRole(before + [NewEvent(data, user, id, today)], Organizer, user, today);
      list != [] && list[|list| - 1] == NewEvent(data, user, id, today)
  {
    var created := NewEvent(data, user, id, today);
    WithStatusAppend(before, created, today);
    FilterAppend(WithStatus(before, today), created, Organizer, user);
  }

  lemma {:induction false} WithStatusAppend(events: seq<Event>, e: Event, today: Day)
    ensures WithStatus(events + [e], today) ==
      WithStatus(events, today) + [e.(status := Some(EventStatusOf(e.date, today)))]
  {
    var l := WithStatus(events + [e], today);
    var r := WithStatus(events, today) + [e.(status := Some(EventStatusOf(e.date, today)))];
    assert |l| == |r|;
    forall i | 0 <= i < |l| ensures l[i] == r[i] {
      if i < |events| { assert (events + [e])[i] == events[i]; }
    }
  }

  lemma {:induction false} FilterAppend(events: seq<Event>, e: Event, role: Role, user: string)
    ensures FilterByRole(events + [e], role, user) ==
      FilterByRole(events, role, user) + (if MatchesRole(e, role, user) then [e] else [])
  {
    if events == [] {
      assert events + [e] == [e];
    } else {
      assert (events + [e])[1..] == events[1..] + [e];
      FilterAppend(events[1..], e, role, user);
    }
  }

  // ---------------------------------------------------------------------------
  // Deletion and attendance

  /** The sequence without its `k`-th element. */
  function RemoveAt(events: seq<Event>, k: nat): (r: seq<Event>)
    requires k < |events|
    ensures |r| == |events| - 1
    ensures forall i :: 0 <= i < k ==> r[i] == events[i]
    ensures forall i :: k <= i < |r| ==> r[i] == events[i + 1]
  {
    events[..k] + events[k + 1..]
  }

  /** Removing the one event with a given id leaves no event with that id. */
  lemma DeletedIdIsGone(events: seq<Event>, id: string, k: nat)
    requires UniqueIds(events)
    requires FirstIndexOf(events, id) == Some(k)
    ensures FirstIndexOf(RemoveAt(events, k), id).None?
    ensures UniqueIds(RemoveAt(events, k))
  {
    var r := RemoveAt(events, k);
    forall j | 0 <= j < |r| ensures r[j].id != id {
      if j < k { assert r[j] == events[j]; } else { assert r[j] == events[j + 1]; }
    }
  }

  /** Removing an element keeps everything else, counted with multiplicity. */
  lemma RemoveAtMultiset(events: seq<Event>, k: nat)
    requires k < |events|
    ensures multiset(RemoveAt(events, k)) + multiset{events[k]} == multiset(events)
  {
    assert events == events[..k] + [events[k]] + events[k + 1..];
  }

  /** Recording an RSVP never moves an event between the organizer and attendee lists. */
  lemma AttendanceKeepsRole(e: Event, a: Attendance, role: Role, user: string)
    ensures MatchesRole(e.(attendanceStatus := Some(a)), role, user) <==> MatchesRole(e, role, user)
  {
    var e' := e.(attendanceStatus := Some(a));
    assert e'.invitees == e.invitees;
  }

  // ---------------------------------------------------------------------------
  // Sample data

  /** The four events seeded into an empty store, with dates relative to `today`. */
  function SampleEvents(ids: seq<string>, today: Day): (r: seq<Event>)
    requires |ids| == 4
    ensures |r| == 4
    ensures forall i :: 0 <= i < 4 ==> r[i].id == ids[i]
    ensures forall i :: 0 <= i < 4 ==> r[i].status == Some(EventStatusOf(r[i].date, today))
  {
    [ Event(ids[0], "Team Building Workshop", Some(today + 5), Some("14:00"), Some("Conference Room A"),
            Some("Interactive team building activities and group exercises"),
            Some("demo_user"), Some(Organizer), Some(Upcoming), None,
            Some([Invitee("colleague1@example.com", InvitedStatus), Invitee("colleague2@example.com", InvitedStatus)])),
      Event(ids[1], "Project Kickoff Meeting", Some(today + 10), Some("10:00"), Some("Virtual - Zoom"),
            Some("Kickoff meeting for the new Q1 project initiative"),
            Some("demo_user"), Some(Organizer), Some(Upcoming), None, None),
      Event(ids[2], "Annual Company Retreat", Some(today + 30), Some("09:00"), Some("Mountain Resort, Lake Tahoe"),
            Some("Three-day company retreat with team activities and relaxation"),
            Some("hr_manager"), Some(Attendee), Some(Upcoming), Some(Going), None),
      Event(ids[3], "Client Presentation", Some(today - 5), Some("15:00"), Some("Client Office"),
            Some("Q4 Results presentation to key stakeholders"),
            Some("demo_user"), Some(Organizer), Some(Past), None, None) ]
  }

  // ---------------------------------------------------------------------------
  // Simulated authentication

  datatype User = User(username: string, email: string)

  datatype AuthResponse = AuthResponse(token: string, user: User)

  const TokenPrefix: string := "local_token_"

  /** The token `local_token_<username>_<Date.now()>`. */
  function SessionToken(username: string, now: nat): (t: string)
    ensures TokenPrefix + username + "_" <= t
    ensures t[|TokenPrefix| + |username| + 1..] == DecimalString(now)
  {
    TokenPrefix + username + "_" + DecimalString(now)
  }

  /** `authenticateUser`: accepts any credentials; the e-mail is synthesised from the name. */
  function AuthenticateUser(username: string, password: string, now: nat): (r: AuthResponse)
    ensures r.user.username == username
    ensures r.user.email == username + "@example.com"
    ensures TokenPrefix + username + "_" <= r.token
    ensures r.token == SessionToken(username, now)
  {
    AuthResponse(SessionToken(username, now), User(username, username + "@example.com"))
  }

  /** `registerUser`: accepts any input and echoes the given e-mail. */
  function RegisterUser(username: string, email: string, password: string, now: nat): (r: AuthResponse)
    ensures r.user == User(username, email)
    ensures r.token == AuthenticateUser(username, password, now).token
  {
    AuthResponse(SessionToken(username, now), User(username, email))
  }

  /** Splits a session token into its user name and time stamp. */
  function ParseToken(token: string): Option<(string, nat)> {
    if !(TokenPrefix <= token) then None
    else
      var rest := token[|TokenPrefix|..];
      var k := LastIndexOf(rest, '_');
      if k < 0 then None
      else
        var stamp := rest[k + 1..];
        if forall i :: 0 <= i < |stamp| ==> IsDigit(stamp[i]) then
          var value := DecimalValue(stamp);
          if value >= 0 then Some((rest[..k], value as nat)) else None
        else None
  }

  /** The user name and the time stamp can be read back from a token, whatever the name holds. */
  lemma TokenRoundTrip(username: string, now: nat)
    ensures ParseToken(SessionToken(username, now)) == Some((username, now))
  {
    var token := SessionToken(username, now);
    var digits := DecimalString(now);
    var rest := username + "_" + digits;
    assert token == TokenPrefix + rest;
    assert token[|TokenPrefix|..] == rest;
    var k := LastIndexOf(rest, '_');
    assert rest[|username|] == '_';
    assert forall j :: |username| < j < |rest| ==> rest[j] == digits[j - |username| - 1];
    assert k == |username|;
    assert rest[k + 1..] == digits;
    assert rest[..k] == username;
    DecimalRoundTrip(now);
  }

  // ---------------------------------------------------------------------------
  // The service

  class LocalStorageService {
    /** The value under 'app_events': absent, or the serialized collection. */
    var eventsKey: Option<seq<Event>>
    /** The values under 'app_users' and 'app_current_user', written elsewhere. */
    var usersKey: Option<string>
    var currentUserKey: Option<string>

    /** The collection `getStoredEvents` reads. */
    function Events(): seq<Event>
      reads this
    {
      StoredEvents(eventsKey)
    }

    /** The service starts on whatever storage holds and seeds it when it reads empty. */
    constructor (events: Option<seq<Event>>, users: Option<string>, currentUser: Option<string>,
                 sampleIds: seq<string>, today: Day)
      requires |sampleIds| == 4
      ensures usersKey == users && currentUserKey == currentUser
      ensures eventsKey == if StoredEvents(events) == [] then Some(SampleEvents(sampleIds, today)) else events
    {
      eventsKey, usersKey, currentUserKey := events, users, currentUser;
      new;
      InitializeSampleData(sampleIds, today);
    }

    /** `saveEvents`: the whole collection is written back under the events key. */
    method SaveEvents(events: seq<Event>)
      modifies this`eventsKey
      ensures eventsKey == Some(events)
    {
      eventsKey := Some(events);
    }

    /** `initializeSampleData`: seeds the sample events only when the store reads empty. */
    method InitializeSampleData(sampleIds: seq<string>, today: Day)
      requires |sampleIds| == 4
      modifies this`eventsKey
      ensures eventsKey == if old(Events()) == [] then Some(SampleEvents(sampleIds, today)) else old(eventsKey)
    {
      var events := StoredEvents(eventsKey);
      if |events| == 0 {
        SaveEvents(SampleEvents(sampleIds, today));
      }
    }

    /** `getEventsByRole`: reads the store and writes nothing. */
    method GetEventsByRole(role: Role, currentUser: string, today: Day) returns (events: seq<Event>)
      ensures events == EventsByRole(Events(), role, currentUser, today)
      ensures IsSubsequence(events, WithStatus(Events(), today))
    {
      var all := StoredEvents(eventsKey);
      var updated := WithStatus(all, today);
      events := FilterByRole(updated, role, currentUser);
    }

    /** `getEventById`: the stored record, status not recomputed; or "Event not found". */
    method GetEventById(eventId: string) returns (r: Result<Event>)
      ensures r == FindEvent(Events(), eventId)
    {
      var events := StoredEvents(eventsKey);
      var found := FirstIndexOf(events, eventId);
      if found.None? {
        return Err(NotFound);
      }
      r := Ok(events[found.value]);
    }

    /** `createEvent`: appends the new record at the end and changes nothing before it. */
    method CreateEvent(eventData: CreateEventRequest, currentUser: string, freshId: string, today: Day)
      returns (event: Event)
      modifies this`eventsKey
      ensures event == NewEvent(eventData, currentUser, freshId, today)
      ensures eventsKey == Some(old(Events()) + [event])
      ensures event.id == freshId && event.title == eventData.title && event.date == eventData.date
      ensures event.organizerId == Some(currentUser) && event.role == Some(Organizer)
      ensures event.status == Some(EventStatusOf(eventData.date, today))
      ensures eventData.invitees.None? ==> event.invitees.None?
      ensures eventData.invitees.Some? ==> event.invitees == Some(ToInvitees(eventData.invitees.value))
    {
      var events := StoredEvents(eventsKey);
      event := NewEvent(eventData, currentUser, freshId, today);
      events := events + [event];
      SaveEvents(events);
    }

    /**
     * `deleteEvent`: "Event not found" when no record has the id, "Only the organizer can
     * delete this event" when the first one is not the user's; otherwise exactly that
     * record is removed. Storage is untouched on both errors.
     */
    method DeleteEvent(eventId: string, currentUser: string) returns (r: Outcome)
      modifies this`eventsKey
      ensures FirstIndexOf(old(Events()), eventId).None? ==>
        r == Failure(NotFound) && eventsKey == old(eventsKey)
      ensures FirstIndexOf(old(Events()), eventId).Some? ==>
        var k := FirstIndexOf(old(Events()), eventId).value;
        if !IsOrganizedBy(old(Events())[k], currentUser) then
          && r == Failure(Forbidden) && eventsKey == old(eventsKey)
          && ErrorMessage(r.error) == "Only the organizer can delete this event"
        else
          r == Success && eventsKey == Some(RemoveAt(old(Events()), k))
    {
      var events := StoredEvents(eventsKey);
      var eventIndex := FirstIndexOf(events, eventId);
      if eventIndex.None? {
        return Failure(NotFound);
      }
      var k := eventIndex.value;
      if events[k].organizerId != Some(currentUser) {
        return Failure(Forbidden);
      }
      events := RemoveAt(events, k);
      SaveEvents(events);
      r := Success;
    }

    /**
     * `updateAttendanceStatus`: "Event not found" when no record has the id; otherwise
     * only the attendance of the first such record changes. The user is not checked.
     */
    method UpdateAttendanceStatus(eventId: string, status: Attendance, currentUser: string)
      returns (r: Outcome)
      modifies this`eventsKey
      ensures FirstIndexOf(old(Events()), eventId).None? ==>
        r == Failure(NotFound) && eventsKey == old(eventsKey)
      ensures FirstIndexOf(old(Events()), eventId).Some? ==>
        var k := FirstIndexOf(old(Events()), eventId).value;
        && r == Success
        && eventsKey == Some(old(Events())[k := old(Events())[k].(attendanceStatus := Some(status))])
    {
      var events := StoredEvents(eventsKey);
      var found := FirstIndexOf(events, eventId);
      if found.None? {
        return Failure(NotFound);
      }
      var k := found.value;
      events := events[k := events[k].(attendanceStatus := Some(status))];
      SaveEvents(events);
      r := Success;
    }

    /** `clearAllData`: removes all three keys, then seeds the sample events again. */
    method ClearAllData(sampleIds: seq<string>, today: Day)
      requires |sampleIds| == 4
      modifies this
      ensures eventsKey == Some(SampleEvents(sampleIds, today))
      ensures usersKey == None && currentUserKey == None
    {
      eventsKey := None;
      usersKey := None;
      currentUserKey := None;
      InitializeSampleData(sampleIds, today);
    }
  }
}
