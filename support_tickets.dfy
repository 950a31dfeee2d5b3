/** The support-ticket desk of the help cog (commands/help.py): one ticket
    per user, identified "TK" plus a zero-padded running number, which the
    developer answers and closes. The cog's `active_tickets` dictionary is
    a sequence of (user id, ticket) pairs so that its insertion order, which
    the listing and the id search follow, is part of the model. Timestamps
    are whole seconds passed in as `now`; the outcome of a direct message
    is passed in as well. */
module SupportTickets {
  import opened Wrappers
  import opened Text

  datatype Status = Open | Closed

  /** The status as stored in the ticket record. */
  function StatusName(s: Status): string {
    match s
    case Open => "open"
    case Closed => "closed"
  }

  datatype Sender = FromUser | FromDeveloper

  datatype Message = Message(sender: Sender, content: string, timestamp: int)

  datatype Ticket = Ticket(
    id: string, userId: int, username: string, subject: string, status: Status,
    createdAt: int, messages: seq<Message>, closedAt: Option<int>, closeReason: Option<string>)

  type Entries = seq<(int, Ticket)>

  // ---------------------------------------------------------------------
  // Ticket ids
  // ---------------------------------------------------------------------

  /** `f"TK{n:04d}"`. */
  function TicketId(n: nat): string {
    "TK" + PadZeros4(n)
  }

  predicate WellFormedId(id: string) {
    |id| >= 6 && id[..2] == "TK" && AllDigits(id[2..])
  }

  function IdNumber(id: string): nat
    requires WellFormedId(id)
  {
    DecimalValue(id[2..])
  }

  /** The number can be read back from the id, so distinct counter values
      give distinct ids. */
  lemma TicketIdNumber(n: nat)
    ensures WellFormedId(TicketId(n)) && IdNumber(TicketId(n)) == n
  {
    var id := TicketId(n);
    assert id[..2] == "TK" && id[2..] == PadZeros4(n);
  }

  lemma TicketIdInjective(m: nat, n: nat)
    requires TicketId(m) == TicketId(n)
    ensures m == n
  {
    TicketIdNumber(m);
    TicketIdNumber(n);
  }

  // ---------------------------------------------------------------------
  // The ticket dictionary
  // ---------------------------------------------------------------------

  /** Position of `user`'s entry, if any. */
  function KeyIndex(entries: Entries, user: int): (r: Option<nat>)
    ensures r.Some? ==> r.value < |entries| && entries[r.value].0 == user
    ensures r.None? ==> forall j :: 0 <= j < |entries| ==> entries[j].0 != user
  {
    if entries == [] then None
    else if entries[0].0 == user then Some(0)
    else match KeyIndex(entries[1..], user)
      case Some(k) => Some(k + 1)
      case None => None
  }

  /** `active_tickets.get(user)`. */
  function TicketOf(entries: Entries, user: int): Option<Ticket> {
    match KeyIndex(entries, user)
    case Some(k) => Some(entries[k].1)
    case None => None
  }

  /** `active_tickets[user] = t`: a known user keeps its place, a new one
      goes last. */
  function Assigned(entries: Entries, user: int, t: Ticket): Entries {
    match KeyIndex(entries, user)
    case Some(k) => entries[k := (user, t)]
    case None => entries + [(user, t)]
  }

  predicate UniqueKeys(entries: Entries) {
    forall i, j :: 0 <= i < j < |entries| ==> entries[i].0 != entries[j].0
  }

  /** An assignment keeps the keys in place and adds the user's key when
      it was missing. */
  lemma AssignedKeys(entries: Entries, user: int, t: Ticket)
    requires UniqueKeys(entries)
    ensures UniqueKeys(Assigned(entries, user, t))
    ensures forall i :: 0 <= i < |entries| ==> Assigned(entries, user, t)[i].0 == entries[i].0
    ensures KeyIndex(entries, user).None? ==> Assigned(entries, user, t) == entries + [(user, t)]
  {
  }

  /** After an assignment the user's ticket is the new one and every other
      user's ticket is what it was. */
  lemma AssignedLookup(entries: Entries, user: int, t: Ticket, other: int)
    requires UniqueKeys(entries)
    ensures TicketOf(Assigned(entries, user, t), user) == Some(t)
    ensures other != user ==> TicketOf(Assigned(entries, user, t), other) == TicketOf(entries, other)
  {
    var a := Assigned(entries, user, t);
    AssignedKeys(entries, user, t);
    match KeyIndex(entries, user) {
      case Some(k0) => UniqueKeyIndex(a, user, k0);
      case None => UniqueKeyIndex(a, user, |entries|);
    }
    if other != user {
      match KeyIndex(entries, other) {
        case Some(j) =>
          UniqueKeyIndex(a, other, j);
          assert a[j] == entries[j];
        case None =>
          assert forall j :: 0 <= j < |a| ==> a[j].0 != other;
      }
    }
  }

  /** With unique keys, the entry holding a key is the one found. */
  lemma UniqueKeyIndex(entries: Entries, user: int, k: nat)
    requires UniqueKeys(entries)
    requires k < |entries| && entries[k].0 == user
    ensures KeyIndex(entries, user) == Some(k)
  {
  }

  /** Position of the first ticket with the given id, as the cog's search
      loop finds it. */
  function IndexOfId(entries: Entries, id: string): (r: Option<nat>)
    ensures r.Some? ==> r.value < |entries| && entries[r.value].1.id == id
    ensures r.Some? ==> forall j :: 0 <= j < r.value ==> entries[j].1.id != id
    ensures r.None? ==> forall j :: 0 <= j < |entries| ==> entries[j].1.id != id
  {
    if entries == [] then None
    else if entries[0].1.id == id then Some(0)
    else match IndexOfId(entries[1..], id)
      case Some(k) => Some(k + 1)
      case None => None
  }

  predicate HasOpenTicket(entries: Entries, user: int) {
    TicketOf(entries, user).Some? && TicketOf(entries, user).value.status == Open
  }

  /** The ticket `create_ticket` stores: open, with the user's message as
      its only message. */
  function NewTicket(id: string, user: int, username: string, subject: string, message: string, now: int): Ticket {
    Ticket(id, user, username, subject, Open, now, [Message(FromUser, message, now)], None, None)
  }

  /** The tickets `tickets_list` collects for a status filter, in
      dictionary order. */
  function Listed(entries: Entries, status: string): (r: seq<Ticket>)
    ensures |r| <= |entries|
    ensures forall t :: t in r ==> status == "all" || StatusName(t.status) == status
  {
    if entries == [] then []
    else
      var rest := Listed(entries[1..], status);
      var t := entries[0].1;
      if status == "all" || StatusName(t.status) == status then [t] + rest else rest
  }

  /** Every ticket is either open or closed: the two filters split the
      whole list, "all" keeps everything, and any other filter nothing. */
  lemma {:induction false} ListedPartition(entries: Entries, status: string)
    ensures |Listed(entries, "open")| + |Listed(entries, "closed")| == |entries|
    ensures |Listed(entries, "all")| == |entries|
    ensures status != "open" && status != "closed" && status != "all" ==> Listed(entries, status) == []
  {
    if entries != [] {
      ListedPartition(entries[1..], status);
      assert "open" != "all" && "closed" != "all" && "open" != "closed";
    }
  }

  // ---------------------------------------------------------------------
  // The desk
  // ---------------------------------------------------------------------

  /** One entry per user, each stored under its own user id, and ids
      that are distinct and were issued by the counter. */
  predicate WellKept(entries: Entries, counter: nat) {
    UniqueKeys(entries)
    && (forall i, j :: 0 <= i < j < |entries| ==> entries[i].1.id != entries[j].1.id)
    && (forall i :: 0 <= i < |entries| ==> entries[i].1.userId == entries[i].0)
    && (forall i :: 0 <= i < |entries| ==> WellFormedId(entries[i].1.id) && 1 <= IdNumber(entries[i].1.id) <= counter)
  }

  /** Storing a ticket with the next number keeps the desk well kept. */
  lemma NewTicketKeepsWellKept(entries: Entries, counter: nat, user: int, t: Ticket)
    requires WellKept(entries, counter)
    requires t.userId == user && WellFormedId(t.id) && IdNumber(t.id) == counter + 1
    ensures WellKept(Assigned(entries, user, t), counter + 1)
  {
    var a := Assigned(entries, user, t);
    AssignedKeys(entries, user, t);
    forall i | 0 <= i < |entries|
      ensures entries[i].1.id != t.id
    {
      assert IdNumber(entries[i].1.id) < IdNumber(t.id);
    }
    match KeyIndex(entries, user) {
      case Some(k) =>
        assert a == entries[k := (user, t)];
      case None =>
        assert a == entries + [(user, t)];
    }
  }

  /** Changing a ticket's content but not its id or owner keeps the desk
      well kept. */
  lemma UpdateKeepsWellKept(entries: Entries, counter: nat, k: nat, t: Ticket)
    requires WellKept(entries, counter) && k < |entries|
    requires t.id == entries[k].1.id && t.userId == entries[k].1.userId
    ensures WellKept(entries[k := (entries[k].0, t)], counter)
  {
  }

  const NotFound := "Ticket not found"
  const AlreadyClosed := "Ticket is already closed"
  const ResponseSent := "Response sent successfully"
  const ClosedMessage := "Ticket closed successfully"

  /** The ticket state of `HelpSupportCog`. */
  class TicketDesk {
    var tickets: Entries
    var counter: nat

    predicate Valid()
      reads this
    {
      WellKept(tickets, counter)
    }

    constructor ()
      ensures Valid() && tickets == [] && counter == 0
    {
      tickets := [];
      counter := 0;
    }

    /** `create_ticket`: advances the counter by one and stores a fresh
        open ticket under the user, replacing any earlier one. */
    method CreateTicket(user: int, username: string, subject: string, message: string, now: int) returns (id: string)
      requires Valid()
      modifies this
      ensures Valid()
      ensures counter == old(counter) + 1 && id == TicketId(counter)
      ensures tickets == Assigned(old(tickets), user, NewTicket(id, user, username, subject, message, now))
    {
      id := TicketId(counter + 1);
      var t := NewTicket(id, user, username, subject, message, now);
      TicketIdNumber(counter + 1);
      NewTicketKeepsWellKept(tickets, counter, user, t);
      counter := counter + 1;
      tickets := Assigned(tickets, user, t);
    }

    /** The search loop shared by `send_ticket_response` and
        `close_ticket`. */
    method FindTicket(id: string) returns (index: Option<nat>)
      ensures index == IndexOfId(tickets, id)
    {
      var i := 0;
      while i < |tickets|
        invariant 0 <= i <= |tickets|
        invariant IndexOfId(tickets, id) == (match IndexOfId(tickets[i..], id)
                                               case Some(k) => Some(k + i)
                                               case None => None)
      {
        assert tickets[i..][1..] == tickets[i + 1..];
        if tickets[i].1.id == id {
          return Some(i);
        }
        i := i + 1;
      }
      assert tickets[i..] == [];
      return None;
    }

    /** `send_ticket_response`: refused for an unknown or closed ticket;
        otherwise one developer message is appended, and the reply reports
        whether the user could be told. */
    method SendTicketResponse(id: string, response: string, now: int, dmError: Option<string>)
      returns (ok: bool, reason: string)
      requires Valid()
      modifies this
      ensures Valid() && counter == old(counter)
      ensures IndexOfId(old(tickets), id).None? ==> !ok && reason == NotFound && tickets == old(tickets)
      ensures IndexOfId(old(tickets), id).Some? ==>
        var k := IndexOfId(old(tickets), id).value;
        var t := old(tickets)[k].1;
        if t.status == Closed then !ok && reason == AlreadyClosed && tickets == old(tickets)
        else tickets == old(tickets)[k := (old(tickets)[k].0, t.(messages := t.messages + [Message(FromDeveloper, response, now)]))]
             && (ok <==> dmError.None?)
             && reason == (if dmError.None? then ResponseSent else "Error: " + dmError.value)
    {
      var index := FindTicket(id);
      if index.None? {
        return false, NotFound;
      }
      var k := index.value;
      var t := tickets[k].1;
      if t.status == Closed {
        return false, AlreadyClosed;
      }
      UpdateKeepsWellKept(tickets, counter, k, t.(messages := t.messages + [Message(FromDeveloper, response, now)]));
      tickets := tickets[k := (tickets[k].0, t.(messages := t.messages + [Message(FromDeveloper, response, now)]))];
      if dmError.None? {
        ok, reason := true, ResponseSent;
      } else {
        ok, reason := false, "Error: " + dmError.value;
      }
    }

    /** `close_ticket`: refused for an unknown ticket; otherwise the ticket
        is marked closed with the time and reason, also when it already
        was. */
    method CloseTicket(id: string, closeReason: Option<string>, now: int) returns (ok: bool, reason: string)
      requires Valid()
      modifies this
      ensures Valid() && counter == old(counter)
      ensures IndexOfId(old(tickets), id).None? ==> !ok && reason == NotFound && tickets == old(tickets)
      ensures IndexOfId(old(tickets), id).Some? ==>
        var k := IndexOfId(old(tickets), id).value;
        var t := old(tickets)[k].1;
        ok && reason == ClosedMessage
        && tickets == old(tickets)[k := (old(tickets)[k].0, t.(status := Closed, closedAt := Some(now), closeReason := closeReason))]
    {
      var index := FindTicket(id);
      if index.None? {
        return false, NotFound;
      }
      var k := index.value;
      var t := tickets[k].1;
      UpdateKeepsWellKept(tickets, counter, k, t.(status := Closed, closedAt := Some(now), closeReason := closeReason));
      tickets := tickets[k := (tickets[k].0, t.(status := Closed, closedAt := Some(now), closeReason := closeReason))];
      return true, ClosedMessage;
    }

    /** `tickets_list`: developer only; counts the tickets matching the
        filter and shows the first ten. */
    method TicketsList(caller: int, developer: int, status: string) returns (allowed: bool, shown: seq<Ticket>, total: nat)
      ensures allowed <==> caller == developer
      ensures allowed ==> total == |Listed(tickets, status)| && |shown| <= 10
      ensures allowed ==> shown == Listed(tickets, status)[..if total < 10 then total else 10]
      ensures !allowed ==> shown == [] && total == 0
    {
      if caller != developer {
        return false, [], 0;
      }
      var filtered: seq<Ticket> := [];
      for i := 0 to |tickets|
        invariant filtered + Listed(tickets[i..], status) == Listed(tickets, status)
      {
        assert tickets[i..][1..] == tickets[i + 1..];
        var t := tickets[i].1;
        if status == "all" || StatusName(t.status) == status {
          filtered := filtered + [t];
        }
      }
      assert tickets[|tickets|..] == [];
      total := |filtered|;
      shown := filtered[..if total < 10 then total else 10];
      allowed := true;
    }

    /** `SupportTicketModal.on_submit`: a user with an open ticket is
        shown that ticket's id instead; anyone else gets a new ticket. */
    method OnSubmit(user: int, username: string, subject: string, message: string, now: int) returns (r: Result<string, string>)
      requires Valid()
      modifies this
      ensures Valid()
      ensures HasOpenTicket(old(tickets), user) ==>
        r == Err(TicketOf(old(tickets), user).value.id) && tickets == old(tickets) && counter == old(counter)
      ensures !HasOpenTicket(old(tickets), user) ==>
        r == Ok(TicketId(counter)) && counter == old(counter) + 1
        && tickets == Assigned(old(tickets), user, NewTicket(r.value, user, username, subject, message, now))
    {
      var existing := TicketOf(tickets, user);
      if existing.Some? && existing.value.status == Open {
        return Err(existing.value.id);
      }
      var id := CreateTicket(user, username, subject, message, now);
      r := Ok(id);
    }
  }

  /** Once a ticket has been submitted the user holds an open ticket, so a
      second submission is refused until the developer closes it. */
  lemma SubmitBlocksResubmit(entries: Entries, user: int, t: Ticket)
    requires UniqueKeys(entries)
    requires t.status == Open
    ensures HasOpenTicket(Assigned(entries, user, t), user)
  {
    AssignedLookup(entries, user, t, user);
  }

  /** Closing the user's ticket lifts the block. */
  lemma ClosedTicketAllowsSubmit(entries: Entries, user: int, t: Ticket)
    requires UniqueKeys(entries)
    requires t.status == Closed
    ensures !HasOpenTicket(Assigned(entries, user, t), user)
  {
    AssignedLookup(entries, user, t, user);
  }
}
