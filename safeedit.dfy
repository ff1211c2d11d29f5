/**
 * safe_edit_text: edit a message, and tell a stale message apart from a real delivery error.
 * The edit itself is transport I/O; what it did is given as an `EditResult`.
 */
module SafeEdit {
  import opened PyStr

  /** What the edit call did: it succeeded, raised TelegramBadRequest with this text, or raised anything else. */
  datatype EditResult = Edited | BadRequest(description: string) | OtherError

  /** What safe_edit_text does in turn: return a boolean, or let the exception propagate. */
  datatype SafeEditOutcome = Returned(value: bool) | Propagated

  const CannotBeEdited: string := "message can't be edited"
  const NotFound: string := "message to edit not found"

  /** The two texts of a bad request that mean the message is stale or gone. */
  predicate IsBenign(description: string) {
    Contains(description, CannotBeEdited) || Contains(description, NotFound)
  }

  /** The edit is reported as done, swallowed exactly on a stale-message text, and propagated otherwise. */
  function SafeEditText(result: EditResult): (o: SafeEditOutcome)
    ensures o == Returned(true) <==> result == Edited
    ensures o == Returned(false) <==>
      && result.BadRequest?
      && ((exists i :: OccursAt(result.description, CannotBeEdited, i)) ||
          (exists i :: OccursAt(result.description, NotFound, i)))
    ensures o == Propagated <==>
      || result == OtherError
      || (&& result.BadRequest?
          && (forall i :: !OccursAt(result.description, CannotBeEdited, i))
          && (forall i :: !OccursAt(result.description, NotFound, i)))
  {
    match result
    case Edited => Returned(true)
    case BadRequest(description) =>
      ContainsAt(description, CannotBeEdited);
      ContainsAt(description, NotFound);
      if IsBenign(description) then Returned(false) else Propagated
    case OtherError => Propagated
  }

  /** The server's wording with a prefix is still recognised as a stale message. */
  lemma PrefixedDescription(prefix: string)
    ensures SafeEditText(BadRequest(prefix + CannotBeEdited)) == Returned(false)
    ensures SafeEditText(BadRequest(prefix + NotFound)) == Returned(false)
  {
    assert OccursAt(prefix + CannotBeEdited, CannotBeEdited, |prefix|);
    assert OccursAt(prefix + NotFound, NotFound, |prefix|);
  }
}
