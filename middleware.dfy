/** The owner guard in front of the webhook: a private bot answers only its owner. */
module Middleware {
  import opened Wrappers
  import opened Text

  /** What the guard does with a request: hand it on, or answer 400 with a reason. */
  datatype Verdict = Pass | Reject(reason: string)

  /**
   * `Protected`. `sender` is the sender id of the parsed body, `None` when the body does not
   * parse; `botType` and `ownerId` are the configuration values.
   */
  function Protected(sender: Option<int>, botType: string, ownerId: string): (v: Verdict)
    ensures v == Pass <==> sender.None? || botType != "private" || Atoi(ownerId) == Some(sender.value)
    ensures v == Reject("Invalid owner id") <==> sender.Some? && botType == "private" && Atoi(ownerId).None?
    ensures v == Reject("Only the owner is allowed to chat")
        <==> sender.Some? && botType == "private" && Atoi(ownerId).Some? && Atoi(ownerId).value != sender.value
  {
    match sender
    case None => Pass
    case Some(id) =>
      if botType == "private" then
        match Atoi(ownerId)
        case None => Reject("Invalid owner id")
        case Some(owner) => if id != owner then Reject("Only the owner is allowed to chat") else Pass
      else Pass
  }

  /** In private mode with a numeric owner id, exactly the owner passes. */
  lemma OnlyTheOwnerPasses(sender: int, owner: nat)
    requires owner <= MaxInt64
    ensures Protected(Some(sender), "private", NatToString(owner)) == Pass <==> sender == owner
  {
    AtoiOfNatToString(owner);
  }
}
