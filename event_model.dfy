/**
 * The records of the event planner (`Event`, `Invitee`, the create and update
 * requests), with every optional TypeScript property as an `Option`.
 */
module EventModel {

  datatype Option<+T> = None | Some(value: T)

  /** A calendar day, counted from an arbitrary origin. */
  type Day = int

  /**
   * A date as the browser parses a date string: `None` when the string is empty or
   * does not parse (an Invalid Date, which compares false with every date).
   */
  type DateValue = Option<Day>

  datatype Role = Organizer | Attendee

  datatype EventStatus = Upcoming | Past

  /** The RSVP values the local store writes: 'going', 'maybe' and 'not_going'. */
  datatype Attendance = Going | Maybe | NotGoing

  /**
   * An invitee. Its status is kept as the raw string because the local store writes
   * "invited" while the details page compares against "Going", "Maybe" and "Not Going".
   */
  datatype Invitee = Invitee(email: string, status: string)

  /** The invitee status the local store gives every invitee it creates. */
  const InvitedStatus: string := "invited"

  /** The invitee status labels the details page counts. */
  const GoingLabel: string := "Going"
  const MaybeLabel: string := "Maybe"
  const NotGoingLabel: string := "Not Going"

  datatype Event = Event(
    id: string,
    title: string,
    date: DateValue,
    time: Option<string>,
    location: Option<string>,
    description: Option<string>,
    organizerId: Option<string>,
    role: Option<Role>,
    status: Option<EventStatus>,
    attendanceStatus: Option<Attendance>,
    invitees: Option<seq<Invitee>>)

  datatype CreateEventRequest = CreateEventRequest(
    title: string,
    date: DateValue,
    location: Option<string>,
    description: Option<string>,
    invitees: Option<seq<string>>)

  datatype UpdateEventRequest = UpdateEventRequest(
    title: string,
    date: DateValue,
    location: Option<string>,
    description: Option<string>)

  /** The e-mail addresses of a list of invitees, in order. */
  function Emails(invitees: seq<Invitee>): (r: seq<string>)
    ensures |r| == |invitees|
    ensures forall i :: 0 <= i < |r| ==> r[i] == invitees[i].email
  {
    if invitees == [] then [] else [invitees[0].email] + Emails(invitees[1..])
  }
}
