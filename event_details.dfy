/**
 * The event details page (`EventDetailsPageComponent`): loading the event named by
 * the route, the attendance tally over its invitees, and the delete confirmation.
 *
 * Each service call is issued by one method, which returns the id it asks for, and
 * answered by an `On...` method that applies the subscriber's callback.
 */
module EventDetails {
  import opened EventModel
  import LocalStorage

  const LoadFailedError: string := "Failed to load event. Please try again."
  const DeleteFailedError: string := "Failed to delete event. Please try again."

  /** The number of invitees whose status is exactly `wanted`. */
  function CountStatus(invitees: seq<Invitee>, wanted: string): (n: nat)
    ensures n <= |invitees|
    ensures n == 0 <==> forall i :: 0 <= i < |invitees| ==> invitees[i].status != wanted
  {
    if invitees == [] then 0
    else
      var init := invitees[..|invitees| - 1];
      assert forall i :: 0 <= i < |init| ==> init[i] == invitees[i];
      CountStatus(init, wanted) + (if invitees[|invitees| - 1].status == wanted then 1 else 0)
  }

  /** The statuses the tally counts: "Going", "Maybe" and "Not Going". */
  predicate IsTallied(status: string) {
    status == GoingLabel || status == MaybeLabel || status == NotGoingLabel
  }

  /** The number of invitees whose status is none of the tallied labels. */
  function CountUntallied(invitees: seq<Invitee>): (n: nat)
    ensures n <= |invitees|
    ensures n == 0 <==> forall i :: 0 <= i < |invitees| ==> IsTallied(invitees[i].status)
  {
    if invitees == [] then 0
    else
      var init := invitees[..|invitees| - 1];
      assert forall i :: 0 <= i < |init| ==> init[i] == invitees[i];
      CountUntallied(init) + (if IsTallied(invitees[|invitees| - 1].status) then 0 else 1)
  }

  /**
   * Every invitee is counted once: the three tallies and the untallied invitees add
   * up to the list, so the tallies cover the whole list exactly when every status is
   * one of the three labels.
   */
  lemma {:induction false} TallyPartition(invitees: seq<Invitee>)
    ensures CountStatus(invitees, GoingLabel) + CountStatus(invitees, MaybeLabel)
          + CountStatus(invitees, NotGoingLabel) + CountUntallied(invitees) == |invitees|
    ensures CountStatus(invitees, GoingLabel) + CountStatus(invitees, MaybeLabel)
          + CountStatus(invitees, NotGoingLabel) == |invitees|
        <==> forall i :: 0 <= i < |invitees| ==> IsTallied(invitees[i].status)
  {
    if invitees != [] {
      TallyPartition(invitees[..|invitees| - 1]);
    }
  }

  /**
   * The invitees the local store creates all carry the status "invited", which is
   * none of the tallied labels, so they count nowhere.
   */
  lemma StoreInviteesCountNowhere(emails: seq<string>)
    ensures CountStatus(LocalStorage.ToInvitees(emails), GoingLabel) == 0
    ensures CountStatus(LocalStorage.ToInvitees(emails), MaybeLabel) == 0
    ensures CountStatus(LocalStorage.ToInvitees(emails), NotGoingLabel) == 0
    ensures CountUntallied(LocalStorage.ToInvitees(emails)) == |emails|
  {
    var invs := LocalStorage.ToInvitees(emails);
    TallyPartition(invs);
  }

  /**
   * An event the local store created keeps the stored role 'organizer', which the
   * lookup hands to every viewer, not only to its creator; so the page shows whoever
   * opens it as organizer, and the tally is zero in each column.
   */
  lemma CreatedEventOnPage(data: CreateEventRequest, user: string, id: string, today: Day)
    ensures var e := LocalStorage.NewEvent(data, user, id, today);
      && e.role == Some(Organizer)
      && (e.invitees.Some? ==>
            && CountStatus(e.invitees.value, GoingLabel) == 0
            && CountStatus(e.invitees.value, MaybeLabel) == 0
            && CountStatus(e.invitees.value, NotGoingLabel) == 0)
  {
    if data.invitees.Some? {
      StoreInviteesCountNowhere(data.invitees.value);
    }
  }

  class EventDetailsPage {
    var event: Option<Event>
    var eventId: string
    var isOrganizer: bool
    var isLoading: bool
    var errorMessage: string
    var showDeleteModal: bool
    var goingCount: int
    var maybeCount: int
    var notGoingCount: int

    constructor ()
      ensures event == None && eventId == "" && !isOrganizer && isLoading
      ensures errorMessage == "" && !showDeleteModal
      ensures goingCount == 0 && maybeCount == 0 && notGoingCount == 0
    {
      event, eventId, isOrganizer, isLoading := None, "", false, true;
      errorMessage, showDeleteModal := "", false;
      goingCount, maybeCount, notGoingCount := 0, 0, 0;
    }

    /** `ngOnInit`'s route handler: remembers the id and loads that event. */
    method OnRouteParams(id: string) returns (requested: string)
      modifies this`eventId, this`isLoading, this`errorMessage
      ensures eventId == id && requested == id && isLoading && errorMessage == ""
    {
      eventId := id;
      requested := LoadEvent();
    }

    /** `loadEvent`, also run by `onRsvpChanged` and `refreshEvent`: asks for the current id. */
    method LoadEvent() returns (requested: string)
      modifies this`isLoading, this`errorMessage
      ensures requested == eventId && isLoading && errorMessage == ""
    {
      isLoading := true;
      errorMessage := "";
      requested := eventId;
    }

    /**
     * `calculateAttendanceSummary`: without a loaded event or a list of invitees the
     * counters keep their values; otherwise each holds the number of invitees with
     * its label.
     */
    method CalculateAttendanceSummary()
      modifies this`goingCount, this`maybeCount, this`notGoingCount
      ensures event.None? || event.value.invitees.None? ==>
        goingCount == old(goingCount) && maybeCount == old(maybeCount) && notGoingCount == old(notGoingCount)
      ensures event.Some? && event.value.invitees.Some? ==>
        && goingCount == CountStatus(event.value.invitees.value, GoingLabel)
        && maybeCount == CountStatus(event.value.invitees.value, MaybeLabel)
        && notGoingCount == CountStatus(event.value.invitees.value, NotGoingLabel)
    {
      if event.None? || event.value.invitees.None? {
        return;
      }
      var invitees := event.value.invitees.value;
      goingCount, maybeCount, notGoingCount := 0, 0, 0;
      var i := 0;
      while i < |invitees|
        invariant 0 <= i <= |invitees|
        invariant goingCount == CountStatus(invitees[..i], GoingLabel)
        invariant maybeCount == CountStatus(invitees[..i], MaybeLabel)
        invariant notGoingCount == CountStatus(invitees[..i], NotGoingLabel)
      {
        assert invitees[..i + 1][..i] == invitees[..i];
        var status := invitees[i].status;
        if status == GoingLabel {
          goingCount := goingCount + 1;
        } else if status == MaybeLabel {
          maybeCount := maybeCount + 1;
        } else if status == NotGoingLabel {
          notGoingCount := notGoingCount + 1;
        }
        i := i + 1;
      }
      assert invitees[..i] == invitees;
    }

    /** The event arrived: it is shown, the organizer flag and the tally are recomputed. */
    method OnLoadResult(e: Event)
      modifies this`event, this`isOrganizer, this`isLoading
      modifies this`goingCount, this`maybeCount, this`notGoingCount
      ensures event == Some(e) && !isLoading
      ensures isOrganizer <==> e.role == Some(Organizer)
      ensures e.invitees.None? ==>
        goingCount == old(goingCount) && maybeCount == old(maybeCount) && notGoingCount == old(notGoingCount)
      ensures e.invitees.Some? ==>
        && goingCount == CountStatus(e.invitees.value, GoingLabel)
        && maybeCount == CountStatus(e.invitees.value, MaybeLabel)
        && notGoingCount == CountStatus(e.invitees.value, NotGoingLabel)
      ensures e.invitees.Some? ==> goingCount + maybeCount + notGoingCount <= |e.invitees.value|
    {
      event := Some(e);
      isOrganizer := e.role == Some(Organizer);
      CalculateAttendanceSummary();
      isLoading := false;
      if e.invitees.Some? {
        TallyPartition(e.invitees.value);
      }
    }

    /** The event could not be loaded: the error is shown and loading ends. */
    method OnLoadFailed()
      modifies this`errorMessage, this`isLoading
      ensures errorMessage == LoadFailedError && !isLoading
    {
      errorMessage := LoadFailedError;
      isLoading := false;
    }

    /** `onDeleteEvent`: opens the delete confirmation. */
    method OnDeleteEvent()
      modifies this`showDeleteModal
      ensures showDeleteModal
    {
      showDeleteModal := true;
    }

    /** `confirmDelete`: asks to delete the current event, unless the id is empty. */
    method ConfirmDelete() returns (requested: Option<string>)
      ensures eventId == "" ==> requested == None
      ensures eventId != "" ==> requested == Some(eventId)
    {
      if eventId == "" {
        return None;
      }
      requested := Some(eventId);
    }

    /**
     * The answer to a delete: on success the page leaves for the dashboard and
     * changes nothing; on failure the error is shown and the confirmation closes.
     */
    method OnDeleteResult(ok: bool) returns (toDashboard: bool)
      modifies this`errorMessage, this`showDeleteModal
      ensures toDashboard == ok
      ensures ok ==> errorMessage == old(errorMessage) && showDeleteModal == old(showDeleteModal)
      ensures !ok ==> errorMessage == DeleteFailedError && !showDeleteModal
    {
      if !ok {
        errorMessage := DeleteFailedError;
        showDeleteModal := false;
      }
      toDashboard := ok;
    }

    /** `cancelDelete`: closes the delete confirmation. */
    method CancelDelete()
      modifies this`showDeleteModal
      ensures !showDeleteModal
    {
      showDeleteModal := false;
    }
  }
}
