/**
 * The invitee table on the event details page (`EventInviteeTableComponent`): the
 * add form with its checks, the remove confirmation, and the status badge class.
 *
 * `eventId` and `invitees` are the component's inputs, set by the parent page.
 * Each service call is issued by one method, which returns what was sent, and
 * answered by an `On...Result` method, which returns whether `inviteeChanged` fires.
 */
module InviteeTable {
  import opened EventModel
  import opened Text
  import opened Email

  const EmptyEmailError: string := "Please enter an email address"
  const InvalidEmailError: string := "Please enter a valid email address"
  const DuplicateInviteeError: string := "This invitee already exists"
  const AddFailedError: string := "Failed to add invitee. Please try again."
  const RemoveFailedError: string := "Failed to remove invitee. Please try again."

  const StatusClassPrefix: string := "status-"

  /** A call to the event service's `addInvitee` or `removeInvitee`. */
  datatype InviteeRequest = AddRequest(eventId: string, email: string) | RemoveRequest(eventId: string, email: string)

  /** Some invitee of the list has exactly this e-mail. */
  predicate Listed(invitees: seq<Invitee>, email: string) {
    exists i :: 0 <= i < |invitees| && invitees[i].email == email
  }

  /** `getStatusClass`: the CSS class of a status badge, from which the status can be read back. */
  function StatusClass(status: string): (r: string)
    ensures |r| == |StatusClassPrefix| + |status|
    ensures StatusClassPrefix <= r
    ensures r[|StatusClassPrefix|..] == status
  {
    StatusClassPrefix + status
  }

  /** Different statuses get different classes. */
  lemma StatusClassInjective(a: string, b: string)
    ensures StatusClass(a) == StatusClass(b) <==> a == b
  {
    if StatusClass(a) == StatusClass(b) {
      assert a == StatusClass(a)[|StatusClassPrefix|..];
    }
  }

  /**
   * The add form sends exactly the texts that have no whitespace anywhere, are
   * valid addresses and are not yet listed, and then sends them unchanged.
   */
  predicate Sendable(invitees: seq<Invitee>, raw: string) {
    IsValidEmail(raw) && !Listed(invitees, raw)
  }

  /**
   * An address typed with surrounding blanks is refused as invalid by the table,
   * because only the emptiness and duplicate checks look at the trimmed text.
   */
  lemma PaddedAddressRefused(raw: string)
    requires raw != [] && (IsWhitespace(raw[0]) || IsWhitespace(raw[|raw| - 1]))
    ensures !IsValidEmail(raw)
  {
    ValidEmailIff(raw);
  }

  class EventInviteeTable {
    var eventId: string
    var invitees: seq<Invitee>
    var newInviteeEmail: string
    var isAdding: bool
    var isRemoving: bool
    var errorMessage: string
    var showConfirmDelete: bool
    var inviteeToDelete: string

    constructor (eventId: string, invitees: seq<Invitee>)
      ensures this.eventId == eventId && this.invitees == invitees
      ensures newInviteeEmail == "" && !isAdding && !isRemoving && errorMessage == ""
      ensures !showConfirmDelete && inviteeToDelete == ""
    {
      this.eventId := eventId;
      this.invitees := invitees;
      newInviteeEmail, isAdding, isRemoving, errorMessage := "", false, false, "";
      showConfirmDelete, inviteeToDelete := false, "";
    }

    /**
     * `addInvitee`: the text is refused when it trims to nothing, then when it is not
     * a valid address as typed, then when its trimmed form is already listed; each
     * refusal only sets the error. Otherwise the trimmed address is sent.
     */
    method AddInvitee() returns (sent: Option<InviteeRequest>)
      modifies this`errorMessage, this`isAdding
      ensures sent.Some? <==> Sendable(invitees, newInviteeEmail)
      ensures sent.Some? ==>
        && sent.value == AddRequest(eventId, newInviteeEmail)
        && Trim(newInviteeEmail) == newInviteeEmail
        && isAdding && errorMessage == ""
      ensures sent.None? ==> isAdding == old(isAdding)
      ensures sent.None? ==>
        (errorMessage == if AllWhitespace(newInviteeEmail) then EmptyEmailError
                         else if !IsValidEmail(newInviteeEmail) then InvalidEmailError
                         else DuplicateInviteeError)
    {
      if Trim(newInviteeEmail) == "" {
        errorMessage := EmptyEmailError;
        ValidEmailIff(newInviteeEmail);
        return None;
      }
      if !IsValidEmail(newInviteeEmail) {
        errorMessage := InvalidEmailError;
        return None;
      }
      var email := Trim(newInviteeEmail);
      ValidEmailIsTrimmed(newInviteeEmail);
      if exists i :: 0 <= i < |invitees| && invitees[i].email == email {
        errorMessage := DuplicateInviteeError;
        return None;
      }
      isAdding := true;
      errorMessage := "";
      sent := Some(AddRequest(eventId, email));
    }

    /** The answer to an add: the input is cleared on success; `inviteeChanged` fires then. */
    method OnAddResult(ok: bool) returns (changed: bool)
      modifies this`newInviteeEmail, this`isAdding, this`errorMessage
      ensures changed == ok && !isAdding
      ensures ok ==> newInviteeEmail == "" && errorMessage == old(errorMessage)
      ensures !ok ==> newInviteeEmail == old(newInviteeEmail) && errorMessage == AddFailedError
    {
      if ok {
        newInviteeEmail := "";
      } else {
        errorMessage := AddFailedError;
      }
      isAdding := false;
      changed := ok;
    }

    /** `confirmRemoveInvitee`: remembers the e-mail and opens the confirmation. */
    method ConfirmRemoveInvitee(email: string)
      modifies this`inviteeToDelete, this`showConfirmDelete
      ensures inviteeToDelete == email && showConfirmDelete
    {
      inviteeToDelete := email;
      showConfirmDelete := true;
    }

    /** `removeInvitee`: sends nothing when no e-mail is remembered. */
    method RemoveInvitee() returns (sent: Option<InviteeRequest>)
      modifies this`isRemoving, this`errorMessage
      ensures inviteeToDelete == "" ==> sent == None && isRemoving == old(isRemoving) && errorMessage == old(errorMessage)
      ensures inviteeToDelete != "" ==>
        sent == Some(RemoveRequest(eventId, inviteeToDelete)) && isRemoving && errorMessage == ""
    {
      if inviteeToDelete == "" {
        return None;
      }
      isRemoving := true;
      errorMessage := "";
      sent := Some(RemoveRequest(eventId, inviteeToDelete));
    }

    /**
     * The answer to a remove: the confirmation closes either way; the remembered
     * e-mail is forgotten only on success, when `inviteeChanged` fires.
     */
    method OnRemoveResult(ok: bool) returns (changed: bool)
      modifies this`isRemoving, this`showConfirmDelete, this`inviteeToDelete, this`errorMessage
      ensures changed == ok && !isRemoving && !showConfirmDelete
      ensures ok ==> inviteeToDelete == "" && errorMessage == old(errorMessage)
      ensures !ok ==> inviteeToDelete == old(inviteeToDelete) && errorMessage == RemoveFailedError
    {
      if ok {
        inviteeToDelete := "";
      } else {
        errorMessage := RemoveFailedError;
      }
      isRemoving := false;
      showConfirmDelete := false;
      changed := ok;
    }

    /** `cancelDelete`: closes the confirmation and forgets the e-mail. */
    method CancelDelete()
      modifies this`showConfirmDelete, this`inviteeToDelete
      ensures !showConfirmDelete && inviteeToDelete == ""
    {
      showConfirmDelete := false;
      inviteeToDelete := "";
    }
  }
}
