/** The fields of a party from its log alone, and what each command does to them (examples/party/decider.go). */
module PartyFields {
  import opened Basics
  import opened PartyTraces
  import P = Party

  // ---------------------------------------------------------------- what an event says of a field

  function NameSaid(e: P.Event): Option<Option<P.Name>> {
    match e
    case Registered(name, _, _, _, _, _) => Some(name)
    case ChangeApplied(_, _, change, _) => if change.NameTo? then Some(change.name) else None
    case _ => None
  }

  function EmailSaid(e: P.Event): Option<string> {
    match e
    case Registered(_, email, _, _, _, _) => Some(email)
    case ChangeApplied(_, _, change, _) => if change.EmailTo? then Some(change.email) else None
    case _ => None
  }

  function DateOfBirthSaid(e: P.Event): Option<string> {
    match e
    case Registered(_, _, _, _, date, _) => Some(date)
    case ChangeApplied(_, _, change, _) => if change.DateOfBirthTo? then Some(change.date) else None
    case _ => None
  }

  function PhoneSaid(e: P.Event): Option<string> {
    match e
    case Registered(_, _, phone, _, _, _) => Some(phone)
    case PhoneUpdated(phone, _) => Some(phone)
    case _ => None
  }

  function AddressSaid(e: P.Event): Option<Option<P.Address>> {
    match e
    case Registered(_, _, _, address, _, _) => Some(address)
    case AddressUpdated(address, _) => Some(address)
    case _ => None
  }

  function StatusSaid(e: P.Event): Option<P.Status> {
    match e
    case Registered(_, _, _, _, _, _) => Some(P.Active)
    case PartySuspended(_, _) => Some(P.Suspended)
    case PartyReactivated(_, _) => Some(P.Active)
    case PartyClosed(_, _) => Some(P.Closed)
    case _ => None
  }

  function RegistrarSaid(e: P.Event): Option<string> {
    match e
    case Registered(_, _, _, _, _, actor) => Some(actor)
    case _ => None
  }

  /** The value is what the last event that speaks of the field says, or the initial one if none does. */
  ghost predicate LastSaid<V>(log: seq<P.Event>, said: P.Event -> Option<V>, initial: V, value: V) {
    || (value == initial && forall i | 0 <= i < |log| :: said(log[i]).None?)
    || exists i | 0 <= i < |log| :: SaidLastAt(log, said, i, value)
  }

  ghost predicate SaidLastAt<V>(log: seq<P.Event>, said: P.Event -> Option<V>, i: nat, value: V)
    requires i < |log|
  {
    said(log[i]) == Some(value) && forall j | i < j < |log| :: said(log[j]).None?
  }

  lemma LastSaidStep<V>(log: seq<P.Event>, said: P.Event -> Option<V>, initial: V, before: V, value: V)
    requires log != [] && LastSaid(log[..|log| - 1], said, initial, before)
    requires value == match said(log[|log| - 1]) case Some(v) => v case None => before
    ensures LastSaid(log, said, initial, value)
  {
    var n := |log| - 1;
    var init := log[..n];
    if said(log[n]).Some? {
      assert SaidLastAt(log, said, n, value);
    } else if exists i | 0 <= i < n :: SaidLastAt(init, said, i, before) {
      var i :| 0 <= i < n && SaidLastAt(init, said, i, before);
      forall j | i < j < |log| ensures said(log[j]).None? {
        assert j < n ==> init[j] == log[j];
      }
      assert SaidLastAt(log, said, i, value);
    } else {
      forall j | 0 <= j < |log| ensures said(log[j]).None? {
        assert j < n ==> init[j] == log[j];
      }
    }
  }

  /** Every field of the state is what the last event of the log that speaks of it says. */
  ghost predicate FieldsFromLog(log: seq<P.Event>, s: P.PartyState) {
    && LastSaid(log, NameSaid, None, s.name)
    && LastSaid(log, EmailSaid, "", s.email)
    && LastSaid(log, DateOfBirthSaid, "", s.dateOfBirth)
    && LastSaid(log, PhoneSaid, "", s.phone)
    && LastSaid(log, AddressSaid, None, s.address)
    && LastSaid(log, StatusSaid, P.Unspecified, s.status)
    && LastSaid(log, RegistrarSaid, "", s.createdBy)
    && LastSaid(log, RegistrarSaid, "", s.partyId)
  }

  /** What one event does to the fields: those it speaks of change, the others stay. */
  lemma EventSetsFields(s: P.PartyState, e: P.Event)
    ensures var s' := P.Evolve(s, e);
            && s'.name == (match NameSaid(e) case Some(v) => v case None => s.name)
            && s'.email == (match EmailSaid(e) case Some(v) => v case None => s.email)
            && s'.dateOfBirth == (match DateOfBirthSaid(e) case Some(v) => v case None => s.dateOfBirth)
            && s'.phone == (match PhoneSaid(e) case Some(v) => v case None => s.phone)
            && s'.address == (match AddressSaid(e) case Some(v) => v case None => s.address)
            && s'.status == (match StatusSaid(e) case Some(v) => v case None => s.status)
            && s'.createdBy == (match RegistrarSaid(e) case Some(v) => v case None => s.createdBy)
            && s'.partyId == (match RegistrarSaid(e) case Some(v) => v case None => s.partyId)
  {
    hide P.FindPending, P.RemoveAt;
  }

  /** The folded state of any log: name, email and date of birth are those last registered or applied, phone and
      address those last registered or updated, the status what the last status event says, and the party's id and
      creator the registering actor. */
  lemma {:induction false} FoldedFields(log: seq<P.Event>)
    ensures FieldsFromLog(log, FoldLog(log))
    decreases |log|
  {
    hide P.Evolve, LastSaid;
    if log == [] {
      NothingSaid();
    } else {
      var n := |log| - 1;
      FoldedFields(log[..n]);
      var s, s' := FoldLog(log[..n]), FoldLog(log);
      EventSetsFields(s, log[n]);
      LastSaidStep(log, NameSaid, None, s.name, s'.name);
      LastSaidStep(log, EmailSaid, "", s.email, s'.email);
      LastSaidStep(log, DateOfBirthSaid, "", s.dateOfBirth, s'.dateOfBirth);
      LastSaidStep(log, PhoneSaid, "", s.phone, s'.phone);
      LastSaidStep(log, AddressSaid, None, s.address, s'.address);
      LastSaidStep(log, StatusSaid, P.Unspecified, s.status, s'.status);
      LastSaidStep(log, RegistrarSaid, "", s.createdBy, s'.createdBy);
      LastSaidStep(log, RegistrarSaid, "", s.partyId, s'.partyId);
    }
  }

  lemma NothingSaid()
    ensures FieldsFromLog([], P.INITIAL)
  {
  }

  // ---------------------------------------------------------------- what a command does

  predicate Registered(s: P.PartyState) { s.partyId != "" }

  predicate Working(s: P.PartyState) { Registered(s) && s.status == P.Active }

  /** The pending change with the id that comes first in the list. */
  predicate FirstPending(s: P.PartyState, changeId: string, i: nat) {
    i < |s.pending| && s.pending[i].changeId == changeId && forall j | 0 <= j < i :: s.pending[j].changeId != changeId
  }

  function WithoutPending(s: P.PartyState, i: nat): P.PartyState
    requires i < |s.pending|
  {
    s.(pending := s.pending[..i] + s.pending[i + 1..])
  }

  /** The command goes through on s and leaves s'. */
  ghost predicate Does(s: P.PartyState, c: P.Command, s': P.PartyState) {
    match c
    case Register(name, email, phone, address, date, actor) =>
      && !Registered(s) && name.Some? && name.value.first != "" && name.value.last != "" && email != "" && '@' in email
      && s' == P.PartyState(actor, name, email, phone, address, date, P.Active, s.pending, actor)
    case Propose(id, change, who, reason) =>
      && Working(s) && id != "" && who != "" && !change.Unset? && (change.EmailTo? ==> change.email != "" && '@' in change.email)
      && (forall i | 0 <= i < |s.pending| :: !P.SameKind(s.pending[i].change, change))
      && s' == s.(pending := s.pending + [P.PendingChange(id, who, reason, change)])
    case Approve(id, who) =>
      && Working(s)
      && exists i: nat :: FirstPending(s, id, i) && s.pending[i].proposedBy != who
                          && TakesEffect(WithoutPending(s, i), s.pending[i].change, s')
    case RejectChange(id, who, _) => exists i: nat :: FirstPending(s, id, i) && s.pending[i].proposedBy != who && s' == WithoutPending(s, i)
    case Withdraw(id, who) => exists i: nat :: FirstPending(s, id, i) && s.pending[i].proposedBy == who && s' == WithoutPending(s, i)
    case UpdatePhone(phone, _) => Working(s) && s' == s.(phone := phone)
    case UpdateAddress(address, _) => Working(s) && s' == s.(address := address)
    case Suspend(_, _) => Working(s) && s' == s.(status := P.Suspended)
    case Reactivate(_, _) => s.status == P.Suspended && s' == s.(status := P.Active)
    case Close(_, _) => Registered(s) && s.status != P.Closed && s' == s.(status := P.Closed)
    case UnknownCommand => false
  }

  predicate TakesEffect(s: P.PartyState, change: P.Change, s': P.PartyState) {
    match change
    case NameTo(name) => s' == s.(name := name)
    case EmailTo(email) => s' == s.(email := email)
    case DateOfBirthTo(date) => s' == s.(dateOfBirth := date)
    case Unset => false
  }

  /** The event names the change, who did it and why, as the command does, and what email it replaced. */
  predicate Attributed(s: P.PartyState, c: P.Command, e: P.Event) {
    match c
    case Register(_, _, _, _, _, who) => e.Registered? && e.actorId == who
    case Propose(id, _, who, reason) => e.ChangeProposed? && e.changeId == id && e.proposedBy == who && e.reason == reason
    case Approve(id, who) =>
      e.ChangeApplied? && e.changeId == id && e.approvedBy == who && e.oldEmail == if e.change.EmailTo? then s.email else ""
    case RejectChange(id, who, reason) => e.ChangeRejected? && e.changeId == id && e.rejectedBy == who && e.reason == reason
    case Withdraw(id, who) => e.ChangeWithdrawn? && e.changeId == id && e.withdrawnBy == who
    case UpdatePhone(_, who) => e.PhoneUpdated? && e.actorId == who
    case UpdateAddress(_, who) => e.AddressUpdated? && e.actorId == who
    case Suspend(who, reason) => e.PartySuspended? && e.actorId == who && e.reason == reason
    case Reactivate(who, comment) => e.PartyReactivated? && e.actorId == who && e.comment == comment
    case Close(who, reason) => e.PartyClosed? && e.actorId == who && e.reason == reason
    case UnknownCommand => false
  }

  /** Deciding and then folding what was decided does what the command is for, in its name, and a command is rejected
      exactly when it does not go through on the state. */
  lemma CommandDoes(s: P.PartyState, c: P.Command)
    ensures P.Decide(s, c).Accept? <==> exists s' :: Does(s, c, s')
    ensures P.Decide(s, c).Accept? ==> |P.Decide(s, c).events| == 1 && Does(s, c, P.Evolve(s, P.Decide(s, c).events[0]))
    ensures P.Decide(s, c).Accept? ==> Attributed(s, c, P.Decide(s, c).events[0])
  {
    var d := P.Decide(s, c);
    if d.Accept? {
      AcceptedDoes(s, c);
    }
    forall s' | Does(s, c, s') ensures d.Accept? {
      DoneIsAccepted(s, c, s');
    }
  }

  lemma FoundFirst(s: P.PartyState, id: string)
    ensures var i := P.FindPending(s.pending, id);
            if i >= 0 then FirstPending(s, id, i) && P.Dropped(s, id) == WithoutPending(s, i)
            else forall j | 0 <= j < |s.pending| :: s.pending[j].changeId != id
  {
  }

  lemma AcceptedDoes(s: P.PartyState, c: P.Command)
    requires P.Decide(s, c).Accept?
    ensures |P.Decide(s, c).events| == 1 && Does(s, c, P.Evolve(s, P.Decide(s, c).events[0]))
    ensures Attributed(s, c, P.Decide(s, c).events[0])
  {
    hide P.FindPending, P.RemoveAt, P.Dropped, WithoutPending;
    match c
    case Approve(id, _) => FoundFirst(s, id);
    case RejectChange(id, _, _) => FoundFirst(s, id);
    case Withdraw(id, _) => FoundFirst(s, id);
    case _ =>
  }

  lemma DoneIsAccepted(s: P.PartyState, c: P.Command, s': P.PartyState)
    requires Does(s, c, s')
    ensures P.Decide(s, c).Accept?
  {
    hide P.RemoveAt, P.Dropped, P.Applied;
    if c.Approve? || c.RejectChange? || c.Withdraw? {
      var i: nat :| FirstPending(s, c.changeId, i);
      assert P.FindPending(s.pending, c.changeId) == i by {
        FoundIs(s, c.changeId, i);
      }
      forall j: nat | FirstPending(s, c.changeId, j) ensures j == i {
        FoundIs(s, c.changeId, j);
      }
    }
  }

  lemma FoundIs(s: P.PartyState, id: string, i: nat)
    requires FirstPending(s, id, i)
    ensures P.FindPending(s.pending, id) == i
  {
  }

  // ---------------------------------------------------------------- why a command is rejected

  /** Some pending change, the first with the id, was proposed by this actor, or by another. */
  ghost predicate ProposedBy(s: P.PartyState, id: string, who: string, own: bool) {
    exists i: nat :: FirstPending(s, id, i) && (s.pending[i].proposedBy == who <==> own)
  }

  /** What each reason means for the command and the state it met. */
  ghost predicate Explains(s: P.PartyState, c: P.Command, reason: string) {
    match c
    case Register(name, email, _, _, _, _) =>
      || (reason == "already registered" && Registered(s))
      || (reason == "invalid input" && !Registered(s)
          && (name.None? || name.value.first == "" || name.value.last == "" || email == "" || '@' !in email))
    case Propose(id, change, who, _) =>
      || (reason == "invalid input"
          && (|| change.Unset? || (change.EmailTo? && (change.email == "" || '@' !in change.email))
              || (Working(s) && (id == "" || who == ""))))
      || (reason == "pending exists" && Working(s) && exists i: nat :: i < |s.pending| && P.SameKind(s.pending[i].change, change))
      || NotWorking(s, reason)
    case Approve(id, who) =>
      || NotWorking(s, reason)
      || (Working(s) && reason == "self approval" && ProposedBy(s, id, who, true))
      || (Working(s) && reason == "no such change" && forall j | 0 <= j < |s.pending| :: s.pending[j].changeId != id)
      || (Working(s) && reason == "invalid input" && exists i: nat :: FirstPending(s, id, i) && s.pending[i].change.Unset?)
    case RejectChange(id, who, _) =>
      || (reason == "self reject" && ProposedBy(s, id, who, true))
      || (reason == "no such change" && forall j | 0 <= j < |s.pending| :: s.pending[j].changeId != id)
    case Withdraw(id, who) =>
      || (reason == "not proposer" && ProposedBy(s, id, who, false))
      || (reason == "no such change" && forall j | 0 <= j < |s.pending| :: s.pending[j].changeId != id)
    case UpdatePhone(_, _) => NotWorking(s, reason)
    case UpdateAddress(_, _) => NotWorking(s, reason)
    case Suspend(_, _) => NotWorking(s, reason)
    case Reactivate(_, _) => reason == "not suspended" && s.status != P.Suspended
    case Close(_, _) =>
      || (reason == "not registered" && !Registered(s))
      || (reason == "already closed" && Registered(s) && s.status == P.Closed)
    case UnknownCommand => reason == "invalid input"
  }

  predicate NotWorking(s: P.PartyState, reason: string) {
    (reason == "not registered" && !Registered(s)) || (reason == "not active" && Registered(s) && s.status != P.Active)
  }

  /** A rejection gives a reason that is true of the command and the state. */
  lemma RejectionExplains(s: P.PartyState, c: P.Command)
    requires P.Decide(s, c).Reject?
    ensures Explains(s, c, P.Decide(s, c).reason)
  {
    hide P.FindPending, FirstPending;
    match c
    case Approve(id, _) => FoundFirst(s, id);
    case RejectChange(id, _, _) => FoundFirst(s, id);
    case Withdraw(id, _) => FoundFirst(s, id);
    case Propose(_, change, _, _) =>
      if P.HasPending(s.pending, change) {
        var i: nat :| i < |s.pending| && P.SameKind(s.pending[i].change, change);
      }
    case _ =>
  }
}
