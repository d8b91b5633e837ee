/** The party aggregate (examples/party): a maker-checker workflow over identity-critical fields, and
    an email address claimed per tenant. */
module Party {
  import opened Basics
  import opened Store
  import opened Aggregate

  // ---------------------------------------------------------------- state

  datatype Name = Name(first: string, last: string)

  datatype Address = Address(line1: string, line2: string, city: string, postalCode: string, country: string)

  datatype Status = Unspecified | Active | Suspended | Closed

  /** The proposed oneof of a pending change. */
  datatype Change = NameTo(name: Option<Name>) | EmailTo(email: string) | DateOfBirthTo(date: string) | Unset

  datatype PendingChange = PendingChange(changeId: string, proposedBy: string, reason: string, change: Change)

  datatype PartyState = PartyState(partyId: string, name: Option<Name>, email: string, phone: string,
                                   address: Option<Address>, dateOfBirth: string, status: Status,
                                   pending: seq<PendingChange>, createdBy: string)

  const INITIAL := PartyState("", None, "", "", None, "", Unspecified, [], "")

  // ---------------------------------------------------------------- commands and events

  datatype Command =
    | Register(name: Option<Name>, email: string, phone: string, address: Option<Address>, dateOfBirth: string, actorId: string)
    | Propose(changeId: string, change: Change, proposedBy: string, reason: string)
    | Approve(changeId: string, approvedBy: string)
    | RejectChange(changeId: string, rejectedBy: string, reason: string)
    | Withdraw(changeId: string, withdrawnBy: string)
    | UpdatePhone(phone: string, actorId: string)
    | UpdateAddress(address: Option<Address>, actorId: string)
    | Suspend(actorId: string, reason: string)
    | Reactivate(actorId: string, comment: string)
    | Close(actorId: string, reason: string)
    | UnknownCommand

  /** A Proposed or Applied event is one of three variants, told apart by the change it carries. */
  datatype Event =
    | Registered(name: Option<Name>, email: string, phone: string, address: Option<Address>, dateOfBirth: string, actorId: string)
    | ChangeProposed(changeId: string, change: Change, proposedBy: string, reason: string)
    | ChangeApplied(changeId: string, approvedBy: string, change: Change, oldEmail: string)
    | ChangeRejected(changeId: string, rejectedBy: string, reason: string)
    | ChangeWithdrawn(changeId: string, withdrawnBy: string)
    | PhoneUpdated(phone: string, actorId: string)
    | AddressUpdated(address: Option<Address>, actorId: string)
    | PartySuspended(actorId: string, reason: string)
    | PartyReactivated(actorId: string, comment: string)
    | PartyClosed(actorId: string, reason: string)

  const EMAIL_SCOPE := "party.email"

  // ---------------------------------------------------------------- pending changes

  predicate SameKind(a: Change, b: Change) {
    match a
    case NameTo(_) => b.NameTo?
    case EmailTo(_) => b.EmailTo?
    case DateOfBirthTo(_) => b.DateOfBirthTo?
    case Unset => b.Unset?
  }

  predicate HasPending(pending: seq<PendingChange>, like: Change) {
    exists i | 0 <= i < |pending| :: SameKind(pending[i].change, like)
  }

  /** Index of the first pending change with the id, or -1. */
  function FindPending(pending: seq<PendingChange>, changeId: string): (i: int)
    ensures -1 <= i < |pending|
    ensures i >= 0 ==> pending[i].changeId == changeId
    ensures forall k | 0 <= k < (if i < 0 then |pending| else i) :: pending[k].changeId != changeId
  {
    if pending == [] then -1
    else if pending[0].changeId == changeId then 0
    else
      var r := FindPending(pending[1..], changeId);
      if r < 0 then -1 else r + 1
  }

  function RemoveAt<T>(s: seq<T>, i: int): seq<T> {
    if 0 <= i < |s| then s[..i] + s[i + 1..] else s
  }

  method SearchPending(pending: seq<PendingChange>, changeId: string) returns (found: Option<PendingChange>, i: int)
    ensures i == FindPending(pending, changeId)
    ensures found == if i < 0 then None else Some(pending[i])
  {
    for k := 0 to |pending|
      invariant forall j | 0 <= j < k :: pending[j].changeId != changeId
    {
      if pending[k].changeId == changeId {
        return Some(pending[k]), k;
      }
    }
    return None, -1;
  }

  method SearchKind(pending: seq<PendingChange>, like: Change) returns (found: bool)
    ensures found <==> HasPending(pending, like)
  {
    for k := 0 to |pending|
      invariant forall j | 0 <= j < k :: !SameKind(pending[j].change, like)
    {
      if SameKind(pending[k].change, like) {
        return true;
      }
    }
    return false;
  }

  // ---------------------------------------------------------------- decide

  function RequireActive(s: PartyState): Option<string> {
    if s.partyId == "" then Some("not registered")
    else if s.status != Active then Some("not active")
    else None
  }

  predicate ValidEmail(email: string) { email != "" && '@' in email }

  function One(guard: Option<string>, e: Event): Decision<Event> {
    match guard
    case Some(r) => Reject(r)
    case None => Accept([e], [])
  }

  function DecideRegister(s: PartyState, c: Command): Decision<Event>
    requires c.Register?
  {
    if s.partyId != "" then Reject("already registered")
    else if c.name.None? || c.name.value.first == "" || c.name.value.last == "" then Reject("invalid input")
    else if !ValidEmail(c.email) then Reject("invalid input")
    else Accept([Registered(c.name, c.email, c.phone, c.address, c.dateOfBirth, c.actorId)],
                [ConstraintOp(Claim, EMAIL_SCOPE, c.email)])
  }

  function DecidePropose(s: PartyState, c: Command): Decision<Event>
    requires c.Propose?
  {
    if c.change.Unset? then Reject("invalid input")
    else if c.change.EmailTo? && !ValidEmail(c.change.email) then Reject("invalid input")
    else if RequireActive(s).Some? then Reject(RequireActive(s).value)
    else if c.changeId == "" || c.proposedBy == "" then Reject("invalid input")
    else if HasPending(s.pending, c.change) then Reject("pending exists")
    else Accept([ChangeProposed(c.changeId, c.change, c.proposedBy, c.reason)], [])
  }

  function DecideApprove(s: PartyState, c: Command): Decision<Event>
    requires c.Approve?
  {
    if RequireActive(s).Some? then Reject(RequireActive(s).value)
    else
      var i := FindPending(s.pending, c.changeId);
      if i < 0 then Reject("no such change")
      else
        var pc := s.pending[i];
        if pc.proposedBy == c.approvedBy then Reject("self approval")
        else
          match pc.change
          case Unset => Reject("invalid input")
          case EmailTo(email) =>
            Accept([ChangeApplied(pc.changeId, c.approvedBy, pc.change, s.email)],
                   [ConstraintOp(Release, EMAIL_SCOPE, s.email), ConstraintOp(Claim, EMAIL_SCOPE, email)])
          case _ => Accept([ChangeApplied(pc.changeId, c.approvedBy, pc.change, "")], [])
  }

  function DecideReject(s: PartyState, c: Command): Decision<Event>
    requires c.RejectChange?
  {
    var i := FindPending(s.pending, c.changeId);
    if i < 0 then Reject("no such change")
    else if s.pending[i].proposedBy == c.rejectedBy then Reject("self reject")
    else Accept([ChangeRejected(s.pending[i].changeId, c.rejectedBy, c.reason)], [])
  }

  function DecideWithdraw(s: PartyState, c: Command): Decision<Event>
    requires c.Withdraw?
  {
    var i := FindPending(s.pending, c.changeId);
    if i < 0 then Reject("no such change")
    else if s.pending[i].proposedBy != c.withdrawnBy then Reject("not proposer")
    else Accept([ChangeWithdrawn(s.pending[i].changeId, c.withdrawnBy)], [])
  }

  function Decide(s: PartyState, c: Command): Decision<Event> {
    match c
    case Register(_, _, _, _, _, _) => DecideRegister(s, c)
    case Propose(_, _, _, _) => DecidePropose(s, c)
    case Approve(_, _) => DecideApprove(s, c)
    case RejectChange(_, _, _) => DecideReject(s, c)
    case Withdraw(_, _) => DecideWithdraw(s, c)
    case UpdatePhone(phone, actor) => One(RequireActive(s), PhoneUpdated(phone, actor))
    case UpdateAddress(address, actor) => One(RequireActive(s), AddressUpdated(address, actor))
    case Suspend(actor, reason) => One(RequireActive(s), PartySuspended(actor, reason))
    case Reactivate(actor, comment) =>
      if s.status != Suspended then Reject("not suspended") else Accept([PartyReactivated(actor, comment)], [])
    case Close(actor, reason) =>
      if s.partyId == "" then Reject("not registered")
      else if s.status == Closed then Reject("already closed")
      else Accept([PartyClosed(actor, reason)], [ConstraintOp(Release, EMAIL_SCOPE, s.email)])
    case UnknownCommand => Reject("invalid input")
  }

  // ---------------------------------------------------------------- evolve

  function Applied(s: PartyState, change: Change): PartyState {
    match change
    case NameTo(n) => s.(name := n)
    case EmailTo(e) => s.(email := e)
    case DateOfBirthTo(d) => s.(dateOfBirth := d)
    case Unset => s
  }

  function Dropped(s: PartyState, changeId: string): PartyState {
    s.(pending := RemoveAt(s.pending, FindPending(s.pending, changeId)))
  }

  function Evolve(s: PartyState, e: Event): PartyState {
    match e
    case Registered(name, email, phone, address, dob, actor) =>
      s.(partyId := actor, name := name, email := email, phone := phone, address := address,
         dateOfBirth := dob, status := Active, createdBy := actor)
    case ChangeProposed(id, change, who, reason) => s.(pending := s.pending + [PendingChange(id, who, reason, change)])
    case ChangeApplied(id, _, change, _) => Applied(Dropped(s, id), change)
    case ChangeRejected(id, _, _) => Dropped(s, id)
    case ChangeWithdrawn(id, _) => Dropped(s, id)
    case PhoneUpdated(phone, _) => s.(phone := phone)
    case AddressUpdated(address, _) => s.(address := address)
    case PartySuspended(_, _) => s.(status := Suspended)
    case PartyReactivated(_, _) => s.(status := Active)
    case PartyClosed(_, _) => s.(status := Closed)
  }

  /** The state object that the source mutates in place. */
  class PartyObject {
    var state: PartyState

    constructor ()
      ensures state == INITIAL
    {
      state := INITIAL;
    }

    method Drop(changeId: string)
      modifies this
      ensures state == Dropped(old(state), changeId)
    {
      var _, i := SearchPending(state.pending, changeId);
      if i >= 0 {
        state := state.(pending := state.pending[..i] + state.pending[i + 1..]);
      }
    }

    method Fold(e: Event)
      modifies this
      ensures state == Evolve(old(state), e)
    {
      match e {
        case ChangeApplied(id, _, change, _) =>
          Drop(id);
          state := Applied(state, change);
        case ChangeRejected(id, _, _) => Drop(id);
        case ChangeWithdrawn(id, _) => Drop(id);
        case Registered(name, email, phone, address, dob, actor) =>
          state := state.(partyId := actor, name := name, email := email, phone := phone);
          state := state.(address := address, dateOfBirth := dob, status := Active, createdBy := actor);
        case ChangeProposed(id, change, who, reason) =>
          state := state.(pending := state.pending + [PendingChange(id, who, reason, change)]);
        case PhoneUpdated(phone, _) => state := state.(phone := phone);
        case AddressUpdated(address, _) => state := state.(address := address);
        case PartySuspended(_, _) => state := state.(status := Suspended);
        case PartyReactivated(_, _) => state := state.(status := Active);
        case PartyClosed(_, _) => state := state.(status := Closed);
      }
    }
  }

  // ---------------------------------------------------------------- what one decision does to the email

  /** Registered and not closed: the parties that own an email address. */
  predicate Live(s: PartyState) { s.partyId != "" && s.status != Closed }

  datatype EmailMove = Keeps | Takes | Swaps | Frees

  function EmailOps(move: EmailMove, s: PartyState, s': PartyState): seq<ConstraintOp> {
    match move
    case Keeps => []
    case Takes => [ConstraintOp(Claim, EMAIL_SCOPE, s'.email)]
    case Swaps => [ConstraintOp(Release, EMAIL_SCOPE, s.email), ConstraintOp(Claim, EMAIL_SCOPE, s'.email)]
    case Frees => [ConstraintOp(Release, EMAIL_SCOPE, s.email)]
  }

  ghost predicate MoveFits(move: EmailMove, s: PartyState, s': PartyState) {
    match move
    case Keeps => Live(s) == Live(s') && (Live(s) ==> s.email == s'.email)
    case Takes => !Live(s) && Live(s')
    case Swaps => Live(s) && Live(s')
    case Frees => Live(s) && !Live(s')
  }

  lemma OneEventEach(s: PartyState, c: Command)
    requires Decide(s, c).Accept?
    ensures |Decide(s, c).events| == 1
  {
  }

  /** Every accepted command emits one event, and its constraint operations are exactly the ones that
      match what the event does to the ownership of an email. For Register this needs an actor id. */
  lemma DecisionMovesEmail(s: PartyState, c: Command) returns (move: EmailMove)
    requires Decide(s, c).Accept?
    requires c.Register? ==> c.actorId != ""
    ensures |Decide(s, c).events| == 1
    ensures var s' := Evolve(s, Decide(s, c).events[0]);
            MoveFits(move, s, s') && Decide(s, c).ops == EmailOps(move, s, s')
  {
    match c
    case Register(_, _, _, _, _, _) => move := Takes;
    case Approve(id, _) => move := if s.pending[FindPending(s.pending, id)].change.EmailTo? then Swaps else Keeps;
    case Close(_, _) => move := Frees;
    case _ => move := Keeps;
  }
}
