/** The ticket handlers. Each one is a ladder of guards (the caller is a known
    user, the ticket exists, the caller owns it) followed by one operation on
    the ticket collection. */
module TicketController {
  import opened Http
  import opened TicketModel

  type TicketId = nat

  /** A ticket together with the id the collection stores it under. */
  datatype Entry = Entry(id: TicketId, ticket: Ticket)

  /** A request body for an update: each present field overrides the stored one.
      Unlike a `Draft`, nothing is defaulted or validated. */
  datatype Patch = Patch(user: Option<UserId>, product: Option<string>,
                         description: Option<string>, status: Option<string>)

  const NotAuthorized := HttpError(401, "Not authorized")
  const UnauthorizedToken := HttpError(401, "Unauthorized token")
  const TicketNotFound := HttpError(404, "Ticket not found")
  const MissingFields := HttpError(400, "Missing fields")

  function Override<T>(current: T, given: Option<T>): T
  {
    if given.Some? then given.value else current
  }

  /** The document `findByIdAndUpdate` leaves behind (validators are not run). */
  function ApplyPatch(t: Ticket, p: Patch): (r: Ticket)
    ensures p.user.Some? ==> r.user == p.user.value
    ensures p.user.None? ==> r.user == t.user
    ensures p.product.Some? ==> r.product == p.product.value
    ensures p.product.None? ==> r.product == t.product
    ensures p.description.Some? ==> r.description == p.description.value
    ensures p.description.None? ==> r.description == t.description
    ensures p.status.Some? ==> r.status == p.status.value
    ensures p.status.None? ==> r.status == t.status
  {
    Ticket(Override(t.user, p.user), Override(t.product, p.product),
           Override(t.description, p.description), Override(t.status, p.status))
  }

  /** Applying the same update twice is the same as applying it once. */
  lemma ApplyPatchIdempotent(t: Ticket, p: Patch)
    ensures ApplyPatch(ApplyPatch(t, p), p) == ApplyPatch(t, p)
  {
  }

  /** An empty update body changes nothing. */
  lemma EmptyPatchIsIdentity(t: Ticket)
    ensures ApplyPatch(t, Patch(None, None, None, None)) == t
  {
  }

  /** `Ticket.find({ user })`: the tickets whose owner is `user`. */
  function OwnedBy(tickets: map<TicketId, Ticket>, user: UserId): (r: map<TicketId, Ticket>)
    ensures forall id :: id in r <==> id in tickets && tickets[id].user == user
    ensures forall id :: id in r ==> r[id] == tickets[id]
  {
    map id | id in tickets && tickets[id].user == user :: tickets[id]
  }

  /** No ticket is listed for two different users. */
  lemma OwnedByDisjoint(tickets: map<TicketId, Ticket>, a: UserId, b: UserId)
    requires a != b
    ensures OwnedBy(tickets, a).Keys !! OwnedBy(tickets, b).Keys
  {
  }

  /** A number bigger than every element of a finite set. */
  lemma {:induction false} UpperBound(s: set<nat>) returns (b: nat)
    ensures forall x :: x in s ==> x < b
  {
    if s == {} {
      b := 0;
    } else {
      var x :| x in s;
      var rest := UpperBound(s - {x});
      b := if x < rest then rest else x + 1;
      forall y | y in s ensures y < b {
        if y != x { assert y in s - {x}; }
      }
    }
  }

  /** However many tickets exist, an unused id remains for a new one. */
  lemma FreshIdExists(used: set<TicketId>)
    ensures exists id: TicketId :: id !in used
  {
    var b := UpperBound(used);
    assert b !in used;
  }

  /** The ticket collection and, standing in for `User.findById`, the set of
      ids of existing users. */
  class TicketStore {
    var tickets: map<TicketId, Ticket>
    var users: set<UserId>

    constructor (users: set<UserId>, tickets: map<TicketId, Ticket>)
      ensures this.users == users && this.tickets == tickets
    {
      this.users := users;
      this.tickets := tickets;
    }

    /** The three guards shared by `getTicket`, `deleteTicket` and
        `updateTicket`, in the order they are checked. */
    function Authorize(caller: UserId, id: TicketId): (r: Result<Ticket, HttpError>)
      reads this
      ensures r.Success? <==> caller in users && id in tickets && tickets[id].user == caller
      ensures r.Success? ==> r.value == tickets[id]
      ensures caller !in users ==> r == Failure(UnauthorizedToken)
      ensures r == Failure(TicketNotFound) <==> caller in users && id !in tickets
      ensures r == Failure(NotAuthorized) <==> caller in users && id in tickets && tickets[id].user != caller
    {
      if caller !in users then Failure(UnauthorizedToken)
      else if id !in tickets then Failure(TicketNotFound)
      else if tickets[id].user != caller then Failure(NotAuthorized)
      else Success(tickets[id])
    }

    /** `getTickets`: the caller's own tickets, none of anyone else's. */
    method GetTickets(caller: UserId) returns (r: Response<map<TicketId, Ticket>>)
      ensures r.Thrown? <==> caller !in users
      ensures r.Thrown? ==> r.error == NotAuthorized
      ensures r.Sent? ==> r.status == 200
      ensures r.Sent? ==> forall id :: id in r.body <==> id in tickets && tickets[id].user == caller
      ensures r.Sent? ==> forall id :: id in r.body ==> r.body[id] == tickets[id]
    {
      if caller !in users {
        return Thrown(NotAuthorized);
      }
      r := Sent(200, OwnedBy(tickets, caller));
    }

    /** `getTicket`: the stored ticket, to its owner only. */
    method GetTicket(caller: UserId, id: TicketId) returns (r: Response<Ticket>)
      ensures caller !in users ==> r == Thrown(UnauthorizedToken)
      ensures caller in users && id !in tickets ==> r == Thrown(TicketNotFound)
      ensures caller in users && id in tickets && tickets[id].user != caller ==> r == Thrown(NotAuthorized)
      ensures caller in users && id in tickets && tickets[id].user == caller ==> r == Sent(200, tickets[id])
    {
      var auth := Authorize(caller, id);
      if auth.Failure? {
        return Thrown(auth.error);
      }
      r := Sent(200, auth.value);
    }

    /** `createTicket`: the field check comes before the caller check; a new
        ticket goes under an id not yet used, owned by the caller. */
    method CreateTicket(caller: UserId, product: Option<string>, description: Option<string>)
      returns (r: Response<Entry>)
      modifies this`tickets
      ensures Falsy(product) || Falsy(description) ==> r == Thrown(MissingFields)
      ensures !Falsy(product) && !Falsy(description) && caller !in users ==> r == Thrown(UnauthorizedToken)
      ensures !Falsy(product) && !Falsy(description) && caller in users && ParseProduct(product.value).None? ==>
                r == Thrown(HttpError(0, ValidationMessage([NotInEnum("product", product.value)])))
      ensures r.Sent? <==> !Falsy(product) && !Falsy(description) && caller in users && ParseProduct(product.value).Some?
      ensures r.Sent? ==> && r.status == 201
                          && r.body.id !in old(tickets)
                          && r.body.ticket == Ticket(caller, product.value, description.value, StatusName(DefaultStatus))
                          && Valid(r.body.ticket)
                          && tickets == old(tickets)[r.body.id := r.body.ticket]
      ensures r.Thrown? ==> tickets == old(tickets)
    {
      if Falsy(product) || Falsy(description) {
        return Thrown(MissingFields);
      }
      if caller !in users {
        return Thrown(UnauthorizedToken);
      }
      var created := Create(Draft(Some(caller), product, description, None));
      if created.Failure? {
        return Thrown(HttpError(0, ValidationMessage(created.error)));
      }
      FreshIdExists(tickets.Keys);
      var id: TicketId :| id !in tickets;
      tickets := tickets[id := created.value];
      r := Sent(201, Entry(id, created.value));
    }

    /** `deleteTicket`: removes exactly the requested ticket, for its owner only. */
    method DeleteTicket(caller: UserId, id: TicketId) returns (r: Response<bool>)
      modifies this`tickets
      ensures caller !in users ==> r == Thrown(UnauthorizedToken)
      ensures caller in users && id !in old(tickets) ==> r == Thrown(TicketNotFound)
      ensures caller in users && id in old(tickets) && old(tickets)[id].user != caller ==> r == Thrown(NotAuthorized)
      ensures caller in users && id in old(tickets) && old(tickets)[id].user == caller ==> r == Sent(200, true)
      ensures r.Sent? ==> tickets == old(tickets) - {id}
      ensures r.Thrown? ==> tickets == old(tickets)
    {
      var auth := Authorize(caller, id);
      if auth.Failure? {
        return Thrown(auth.error);
      }
      tickets := tickets - {id};
      r := Sent(200, true);
    }

    /** `updateTicket`: patches exactly the requested ticket, for its owner
        only, and answers with the record as it is after the update. */
    method UpdateTicket(caller: UserId, id: TicketId, patch: Patch) returns (r: Response<Ticket>)
      modifies this`tickets
      ensures caller !in users ==> r == Thrown(UnauthorizedToken)
      ensures caller in users && id !in old(tickets) ==> r == Thrown(TicketNotFound)
      ensures caller in users && id in old(tickets) && old(tickets)[id].user != caller ==> r == Thrown(NotAuthorized)
      ensures caller in users && id in old(tickets) && old(tickets)[id].user == caller ==>
                r == Sent(200, ApplyPatch(old(tickets)[id], patch))
      ensures r.Sent? ==> tickets == old(tickets)[id := r.body]
      ensures r.Thrown? ==> tickets == old(tickets)
    {
      var auth := Authorize(caller, id);
      if auth.Failure? {
        return Thrown(auth.error);
      }
      var updated := ApplyPatch(auth.value, patch);
      tickets := tickets[id := updated];
      r := Sent(200, updated);
    }
  }

  /** A ticket read back right after it was created has the product and
      description it was created with and the default status. */
  method CreateThenGet(store: TicketStore, caller: UserId, product: string, description: string)
    returns (created: Response<Entry>, fetched: Response<Ticket>)
    requires caller in store.users && product != "" && description != ""
    modifies store`tickets
    ensures ParseProduct(product).Some? ==>
              && created.Sent? && fetched.Sent?
              && fetched.body == Ticket(caller, product, description, "new")
  {
    created := store.CreateTicket(caller, Some(product), Some(description));
    if created.Sent? {
      fetched := store.GetTicket(caller, created.body.id);
    } else {
      fetched := Thrown(TicketNotFound);
    }
  }

  /** A user cannot delete a ticket somebody else created, and the ticket stays. */
  method OtherUserCannotDelete(store: TicketStore, owner: UserId, other: UserId)
    returns (created: Response<Entry>, deleted: Response<bool>)
    requires owner in store.users && other in store.users && owner != other
    modifies store`tickets
    ensures created.Sent? && deleted == Thrown(NotAuthorized)
    ensures created.body.id in store.tickets && store.tickets[created.body.id].user == owner
  {
    created := store.CreateTicket(owner, Some("iPhone"), Some("Screen cracked"));
    deleted := store.DeleteTicket(other, created.body.id);
  }
}
