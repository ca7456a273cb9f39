/** The ticket store: guild id -> channel id -> ticket record, the helpers that rewrite one
    record of it, and the commands that read it and guard those rewrites. */
module Tickets {
  import opened Common
  import opened OrderForm
  import opened Naming

  datatype TicketStatus = Open | Closed

  /** One ticket record as the bot stores it. `orderSubmitted` is the `order_submitted` key,
      absent (falsy) until the Submit button writes it. */
  datatype Ticket = Ticket(
    owner: UserId,
    ticketType: TicketType,
    orderLink: Option<string>,
    createdAt: Timestamp,
    status: TicketStatus,
    closedAt: Option<Timestamp>,
    previewMessageId: Option<MessageId>,
    orderSubmitted: bool,
    details: OrderDetails)

  /** The whole tickets document. */
  type Store = map<GuildId, map<ChannelId, Ticket>>

  /** A record carries a closing time exactly when it is closed. */
  predicate WellFormed(t: Ticket) {
    t.closedAt.Some? <==> t.status == Closed
  }

  /** `get_ticket_record`: the record at (guild, channel), or None when either key is missing. */
  function Lookup(s: Store, g: GuildId, c: ChannelId): (r: Option<Ticket>)
    ensures r.Some? <==> g in s && c in s[g]
    ensures r.Some? ==> r.value == s[g][c]
  {
    if g in s && c in s[g] then Some(s[g][c]) else None
  }

  ghost predicate StoreWellFormed(s: Store) {
    forall g, c :: Lookup(s, g, c).Some? ==> WellFormed(Lookup(s, g, c).value)
  }

  /** `tickets[guild][channel] = record`, creating the guild's entry first when it is missing. */
  function Put(s: Store, g: GuildId, c: ChannelId, t: Ticket): (r: Store)
    ensures r.Keys == s.Keys + {g}
    ensures forall g' :: g' in s && g' != g ==> r[g'] == s[g']
    ensures forall g', c' :: Lookup(r, g', c') == if g' == g && c' == c then Some(t) else Lookup(s, g', c')
  {
    s[g := (if g in s then s[g] else map[])[c := t]]
  }

  /** The record `create_ticket_record` writes. */
  function NewTicket(owner: UserId, t: TicketType, link: Option<string>, now: Timestamp): Ticket {
    Ticket(owner, t, link, now, Open, None, None, false, DefaultDetails)
  }

  /** The store after `create_ticket_record`. */
  function AfterCreate(s: Store, g: GuildId, c: ChannelId, owner: UserId, t: TicketType,
                       link: Option<string>, now: Timestamp): Store {
    Put(s, g, c, NewTicket(owner, t, link, now))
  }

  /** The store after `set_ticket_preview_message_id`. */
  function AfterPreview(s: Store, g: GuildId, c: ChannelId, m: MessageId): Store {
    match Lookup(s, g, c)
    case None => s
    case Some(t) => Put(s, g, c, t.(previewMessageId := Some(m)))
  }

  /** The store after `close_ticket_record`. */
  function AfterClose(s: Store, g: GuildId, c: ChannelId, now: Timestamp): Store {
    match Lookup(s, g, c)
    case None => s
    case Some(t) => Put(s, g, c, t.(status := Closed, closedAt := Some(now)))
  }

  /** The store after `update_order_field`. */
  function AfterFieldUpdate(s: Store, g: GuildId, c: ChannelId, f: OrderField, v: string): Store {
    match Lookup(s, g, c)
    case None => s
    case Some(t) => Put(s, g, c, t.(details := With(t.details, f, v)))
  }

  /** The store after the Submit button's flag write, which indexes the record without a guard. */
  function AfterSubmit(s: Store, g: GuildId, c: ChannelId): Store
    requires Lookup(s, g, c).Some?
  {
    Put(s, g, c, Lookup(s, g, c).value.(orderSubmitted := true))
  }

  /** The one authorisation rule of Submit and Close: the ticket's creator, or anyone with the
      manage-channels permission. */
  predicate MayActOnTicket(actor: UserId, manageChannels: bool, t: Ticket) {
    actor == t.owner || manageChannels
  }

  /** The channel permission change `/add` and `/remove` hand to Discord. */
  datatype PermissionChange = PermissionChange(
    channel: ChannelId, user: UserId, readMessages: bool, sendMessages: Option<bool>)

  /** Whether a new ticket gets an order-form preview: New Order tickets always, others when the
      link they were opened with is non-empty. */
  predicate WantsPreview(t: TicketType, link: Option<string>) {
    t == NewOrder || (link.Some? && link.value != [])
  }

  // ---------------------------------------------------------------- lemmas about the store

  /** Adding an empty entry for a new guild changes no lookup. */
  lemma EmptyGuildInvisible(s: Store, g: GuildId)
    requires g !in s
    ensures forall g', c' :: Lookup(s[g := map[]], g', c') == Lookup(s, g', c')
    ensures StoreWellFormed(s) ==> StoreWellFormed(s[g := map[]])
  {
    var s' := s[g := map[]];
    forall g', c' ensures Lookup(s', g', c') == Lookup(s, g', c') {
      if g' == g {
        assert c' !in s'[g'];
      }
    }
  }

  lemma PutPreservesWellFormed(s: Store, g: GuildId, c: ChannelId, t: Ticket)
    requires StoreWellFormed(s) && WellFormed(t)
    ensures StoreWellFormed(Put(s, g, c, t))
  {
  }

  /** After creation the record at (guild, channel) is an open ticket of the given owner, type,
      link and time, with no preview, not submitted, and exactly the five default details. */
  lemma CreateThenLookup(s: Store, g: GuildId, c: ChannelId, owner: UserId, t: TicketType,
                         link: Option<string>, now: Timestamp)
    ensures var r := Lookup(AfterCreate(s, g, c, owner, t, link, now), g, c);
      && r.Some?
      && r.value.owner == owner && r.value.ticketType == t && r.value.orderLink == link
      && r.value.createdAt == now && r.value.status == Open && r.value.closedAt == None
      && r.value.previewMessageId == None && !r.value.orderSubmitted
      && r.value.details == DefaultDetails
  {
  }

  /** Creation touches no other (guild, channel) entry and adds the guild when it was missing. */
  lemma CreateFrame(s: Store, g: GuildId, c: ChannelId, owner: UserId, t: TicketType,
                    link: Option<string>, now: Timestamp, g': GuildId, c': ChannelId)
    requires g' != g || c' != c
    ensures Lookup(AfterCreate(s, g, c, owner, t, link, now), g', c') == Lookup(s, g', c')
    ensures AfterCreate(s, g, c, owner, t, link, now).Keys == s.Keys + {g}
  {
  }

  /** Closing an existing ticket marks it closed at `now` and changes nothing else about it;
      closing a missing one leaves the store as it was; no other entry changes. */
  lemma CloseRule(s: Store, g: GuildId, c: ChannelId, now: Timestamp, g': GuildId, c': ChannelId)
    ensures Lookup(s, g, c).None? ==> AfterClose(s, g, c, now) == s
    ensures Lookup(s, g, c).Some? ==>
      var t := Lookup(s, g, c).value;
      var r := Lookup(AfterClose(s, g, c, now), g, c);
      && r.Some? && r.value.status == Closed && r.value.closedAt == Some(now)
      && r.value.owner == t.owner && r.value.ticketType == t.ticketType
      && r.value.orderLink == t.orderLink && r.value.details == t.details
      && r.value == t.(status := Closed, closedAt := Some(now))
    ensures g' != g || c' != c ==> Lookup(AfterClose(s, g, c, now), g', c') == Lookup(s, g', c')
  {
  }

  /** Writing two records at one key keeps only the second. */
  lemma PutPut(s: Store, g: GuildId, c: ChannelId, t1: Ticket, t2: Ticket)
    ensures Put(Put(s, g, c, t1), g, c, t2) == Put(s, g, c, t2)
  {
    var a, b := Put(Put(s, g, c, t1), g, c, t2), Put(s, g, c, t2);
    assert a[g] == b[g];
  }

  /** Closing again keeps the ticket closed; only the later closing time survives. */
  lemma {:induction false} CloseTwice(s: Store, g: GuildId, c: ChannelId, now1: Timestamp, now2: Timestamp)
    ensures AfterClose(AfterClose(s, g, c, now1), g, c, now2) == AfterClose(s, g, c, now2)
    ensures Lookup(s, g, c).Some? ==> Lookup(AfterClose(AfterClose(s, g, c, now1), g, c, now2), g, c).value.status == Closed
  {
    match Lookup(s, g, c)
    case None =>
    case Some(t) =>
      var t1 := t.(status := Closed, closedAt := Some(now1));
      assert Lookup(Put(s, g, c, t1), g, c) == Some(t1);
      assert t1.(status := Closed, closedAt := Some(now2)) == t.(status := Closed, closedAt := Some(now2));
      PutPut(s, g, c, t1, t.(status := Closed, closedAt := Some(now2)));
  }

  /** Updating a field changes that one field of the targeted ticket and nothing else; on a
      missing guild or ticket it changes nothing at all. */
  lemma FieldUpdateRule(s: Store, g: GuildId, c: ChannelId, f: OrderField, v: string,
                        g': GuildId, c': ChannelId, f': OrderField)
    ensures Lookup(s, g, c).None? ==> AfterFieldUpdate(s, g, c, f, v) == s
    ensures Lookup(s, g, c).Some? ==>
      var t := Lookup(s, g, c).value;
      var r := Lookup(AfterFieldUpdate(s, g, c, f, v), g, c);
      && r.Some? && Get(r.value.details, f) == v
      && (f' != f ==> Get(r.value.details, f') == Get(t.details, f'))
      && r.value.(details := t.details) == t
    ensures g' != g || c' != c ==> Lookup(AfterFieldUpdate(s, g, c, f, v), g', c') == Lookup(s, g', c')
  {
  }

  /** The preview id is set on an existing ticket only, touching no other field, and a later
      write replaces an earlier one. */
  lemma {:induction false} PreviewRule(s: Store, g: GuildId, c: ChannelId, m1: MessageId, m2: MessageId)
    ensures Lookup(s, g, c).None? ==> AfterPreview(s, g, c, m1) == s
    ensures Lookup(s, g, c).Some? ==>
      Lookup(AfterPreview(s, g, c, m1), g, c) == Some(Lookup(s, g, c).value.(previewMessageId := Some(m1)))
    ensures AfterPreview(AfterPreview(s, g, c, m1), g, c, m2) == AfterPreview(s, g, c, m2)
  {
    match Lookup(s, g, c)
    case None =>
    case Some(t) =>
      var t1 := t.(previewMessageId := Some(m1));
      assert Lookup(Put(s, g, c, t1), g, c) == Some(t1);
      assert t1.(previewMessageId := Some(m2)) == t.(previewMessageId := Some(m2));
      PutPut(s, g, c, t1, t.(previewMessageId := Some(m2)));
  }

  /** Submitting sets the flag and leaves status, details and everything else of the ticket. */
  lemma SubmitRule(s: Store, g: GuildId, c: ChannelId)
    requires Lookup(s, g, c).Some?
    ensures var t := Lookup(s, g, c).value;
      var r := Lookup(AfterSubmit(s, g, c), g, c);
      && r.Some? && r.value.orderSubmitted
      && r.value.status == t.status && r.value.details == t.details
      && r.value.(orderSubmitted := t.orderSubmitted) == t
  {
  }

  /** No rewrite after creation reopens a closed ticket. */
  lemma ClosedStaysClosed(s: Store, g: GuildId, c: ChannelId, g': GuildId, c': ChannelId,
                          m: MessageId, now: Timestamp, f: OrderField, v: string)
    requires Lookup(s, g', c').Some? && Lookup(s, g', c').value.status == Closed
    ensures Lookup(AfterPreview(s, g, c, m), g', c').value.status == Closed
    ensures Lookup(AfterClose(s, g, c, now), g', c').value.status == Closed
    ensures Lookup(AfterFieldUpdate(s, g, c, f, v), g', c').value.status == Closed
    ensures Lookup(s, g, c).Some? ==> Lookup(AfterSubmit(s, g, c), g', c').value.status == Closed
  {
  }

  /** Every helper keeps "closed exactly when a closing time is recorded". */
  lemma OperationsPreserveWellFormed(s: Store, g: GuildId, c: ChannelId, owner: UserId, t: TicketType,
                                     link: Option<string>, m: MessageId, now: Timestamp, f: OrderField, v: string)
    requires StoreWellFormed(s)
    ensures StoreWellFormed(AfterCreate(s, g, c, owner, t, link, now))
    ensures StoreWellFormed(AfterPreview(s, g, c, m))
    ensures StoreWellFormed(AfterClose(s, g, c, now))
    ensures StoreWellFormed(AfterFieldUpdate(s, g, c, f, v))
    ensures Lookup(s, g, c).Some? ==> StoreWellFormed(AfterSubmit(s, g, c))
  {
    PutPreservesWellFormed(s, g, c, NewTicket(owner, t, link, now));
    match Lookup(s, g, c)
    case None =>
    case Some(r) =>
      PutPreservesWellFormed(s, g, c, r.(previewMessageId := Some(m)));
      PutPreservesWellFormed(s, g, c, r.(status := Closed, closedAt := Some(now)));
      PutPreservesWellFormed(s, g, c, r.(details := With(r.details, f, v)));
      PutPreservesWellFormed(s, g, c, r.(orderSubmitted := true));
  }

  /** Open a New Order ticket and set its tip from the raw input: the stored tip is the
      normalised input and the ticket is open; submitting then only raises the submitted flag,
      so the ticket stays open and the tip stays as set. */
  lemma OrderScenario(s: Store, g: GuildId, c: ChannelId, owner: UserId, link: string, now: Timestamp, raw: string)
    ensures var s2 := AfterFieldUpdate(AfterCreate(s, g, c, owner, NewOrder, Some(link), now), g, c, Tip, NormalizeTip(raw));
      && Lookup(s2, g, c).Some?
      && Lookup(s2, g, c).value.details.tip == NormalizeTip(raw)
      && Lookup(s2, g, c).value.status == Open
      && var r := Lookup(AfterSubmit(s2, g, c), g, c);
      && r.Some? && r.value.orderSubmitted && r.value.status == Open && r.value.details.tip == NormalizeTip(raw)
  {
    var v := NormalizeTip(raw);
    var s1 := AfterCreate(s, g, c, owner, NewOrder, Some(link), now);
    CreateThenLookup(s, g, c, owner, NewOrder, Some(link), now);
    var s2 := AfterFieldUpdate(s1, g, c, Tip, v);
    FieldUpdateRule(s1, g, c, Tip, v, g, c, Tip);
    assert Lookup(s2, g, c).value.details.tip == Get(Lookup(s2, g, c).value.details, Tip);
    SubmitRule(s2, g, c);
  }

  // ---------------------------------------------------------------- the store as the bot uses it

  /** The tickets document. Every helper loads the whole snapshot, changes one entry and saves
      the whole snapshot back; here the document is this object's `tickets` field. */
  class TicketStore {
    var tickets: Store

    ghost predicate Valid()
      reads this
    {
      StoreWellFormed(tickets)
    }

    constructor ()
      ensures Valid() && tickets == map[]
    {
      tickets := map[];
    }

    /** `get_ticket_data_for_guild`: the guild's tickets, saving an empty entry for a guild not
        seen before. */
    method GuildTickets(g: GuildId) returns (m: map<ChannelId, Ticket>)
      requires Valid()
      modifies this
      ensures Valid()
      ensures tickets == if g in old(tickets) then old(tickets) else old(tickets)[g := map[]]
      ensures m == tickets[g]
      ensures forall c :: c in m <==> Lookup(old(tickets), g, c).Some?
    {
      var snapshot: Store := tickets;
      if g !in snapshot {
        snapshot := snapshot[g := map[]];
        tickets := snapshot;
        EmptyGuildInvisible(old(tickets), g);
      }
      m := snapshot[g];
    }

    /** `create_ticket_record`. */
    method CreateTicketRecord(g: GuildId, c: ChannelId, owner: UserId, t: TicketType,
                              link: Option<string>, now: Timestamp)
      requires Valid()
      modifies this
      ensures Valid()
      ensures tickets == AfterCreate(old(tickets), g, c, owner, t, link, now)
    {
      var snapshot: Store := tickets;
      if g !in snapshot {
        snapshot := snapshot[g := map[]];
      }
      snapshot := snapshot[g := snapshot[g][c := Ticket(owner, t, link, now, Open, None, None, false, DefaultDetails)]];
      tickets := snapshot;
      assert tickets == Put(old(tickets), g, c, NewTicket(owner, t, link, now));
      PutPreservesWellFormed(old(tickets), g, c, NewTicket(owner, t, link, now));
    }

    /** `set_ticket_preview_message_id`. */
    method SetPreviewMessageId(g: GuildId, c: ChannelId, m: MessageId)
      requires Valid()
      modifies this
      ensures Valid()
      ensures tickets == AfterPreview(old(tickets), g, c, m)
    {
      var snapshot: Store := tickets;
      if g !in snapshot || snapshot[g] == map[] {
        return;
      }
      if c !in snapshot[g] {
        return;
      }
      assert Lookup(snapshot, g, c).Some?;
      var record: Ticket := snapshot[g][c];
      record := record.(previewMessageId := Some(m));
      snapshot := snapshot[g := snapshot[g][c := record]];
      tickets := snapshot;
      PutPreservesWellFormed(old(tickets), g, c, record);
    }

    /** `close_ticket_record`. */
    method CloseTicketRecord(g: GuildId, c: ChannelId, now: Timestamp)
      requires Valid()
      modifies this
      ensures Valid()
      ensures tickets == AfterClose(old(tickets), g, c, now)
    {
      var snapshot: Store := tickets;
      if g in snapshot && c in snapshot[g] {
        assert Lookup(snapshot, g, c).Some?;
        var record: Ticket := snapshot[g][c];
        record := record.(status := Closed);
        record := record.(closedAt := Some(now));
        snapshot := snapshot[g := snapshot[g][c := record]];
        tickets := snapshot;
        PutPreservesWellFormed(old(tickets), g, c, record);
      }
    }

    /** `update_order_field`. */
    method UpdateOrderField(g: GuildId, c: ChannelId, f: OrderField, v: string)
      requires Valid()
      modifies this
      ensures Valid()
      ensures tickets == AfterFieldUpdate(old(tickets), g, c, f, v)
    {
      var snapshot: Store := tickets;
      if g !in snapshot || snapshot[g] == map[] {
        return;
      }
      if c !in snapshot[g] {
        return;
      }
      assert Lookup(snapshot, g, c).Some?;
      var record: Ticket := snapshot[g][c];
      var details := record.details;
      details := With(details, f, v);
      record := record.(details := details);
      snapshot := snapshot[g := snapshot[g][c := record]];
      tickets := snapshot;
      PutPreservesWellFormed(old(tickets), g, c, record);
    }

    /** An order-form modal or the delivery-type select: normalise the input for its field, then
        store it. The modal does not check that the ticket still exists. */
    method SubmitFormField(g: GuildId, c: ChannelId, f: OrderField, raw: string)
      requires Valid()
      modifies this
      ensures Valid()
      ensures tickets == AfterFieldUpdate(old(tickets), g, c, f, FormValue(f, raw))
    {
      var value := FormValue(f, raw);
      UpdateOrderField(g, c, f, value);
    }

    /** The Submit button: refuse a channel with no ticket, then anyone but the owner or staff;
        otherwise set the submitted flag. A refused attempt leaves the store unchanged. */
    method SubmitOrder(g: GuildId, c: ChannelId, actor: UserId, manageChannels: bool) returns (r: Outcome)
      requires Valid()
      modifies this
      ensures Valid()
      ensures Lookup(old(tickets), g, c).None? ==> r == Fail(NotATicket)
      ensures Lookup(old(tickets), g, c).Some? ==>
        r == if MayActOnTicket(actor, manageChannels, Lookup(old(tickets), g, c).value) then Pass else Fail(Unauthorized)
      ensures r != Pass ==> tickets == old(tickets)
      ensures r == Pass ==> tickets == AfterSubmit(old(tickets), g, c)
    {
      var ticket := Lookup(tickets, g, c);
      if ticket.None? {
        return Fail(NotATicket);
      }
      if actor != ticket.value.owner && !manageChannels {
        return Fail(Unauthorized);
      }
      var snapshot: Store := tickets;
      var record: Ticket := snapshot[g][c].(orderSubmitted := true);
      snapshot := snapshot[g := snapshot[g][c := record]];
      tickets := snapshot;
      PutPreservesWellFormed(old(tickets), g, c, record);
      r := Pass;
    }

    /** The Close button and `/close`: refuse a channel with no ticket, then anyone but the owner
        or staff; otherwise close the record. Deleting the channel afterwards is Discord's. */
    method CloseTicket(g: GuildId, c: ChannelId, actor: UserId, manageChannels: bool, now: Timestamp)
      returns (r: Outcome)
      requires Valid()
      modifies this
      ensures Valid()
      ensures Lookup(old(tickets), g, c).None? ==> r == Fail(NotATicket)
      ensures Lookup(old(tickets), g, c).Some? ==>
        r == if MayActOnTicket(actor, manageChannels, Lookup(old(tickets), g, c).value) then Pass else Fail(Unauthorized)
      ensures r != Pass ==> tickets == old(tickets)
      ensures r == Pass ==> tickets == AfterClose(old(tickets), g, c, now)
    {
      var snapshot: Store := tickets;
      if g in snapshot && c in snapshot[g] {
        var creator := snapshot[g][c].owner;
        if actor == creator || manageChannels {
          CloseTicketRecord(g, c, now);
          r := Pass;
        } else {
          r := Fail(Unauthorized);
        }
      } else {
        r := Fail(NotATicket);
      }
    }

    /** `/add`: manage-channels is checked first, then that the channel is a ticket; on success
        the user may read and send in the channel. */
    method AddUser(g: GuildId, c: ChannelId, manageChannels: bool, user: UserId)
      returns (r: Result<PermissionChange, CommandError>)
      ensures !manageChannels ==> r == Failure(Unauthorized)
      ensures manageChannels && Lookup(tickets, g, c).None? ==> r == Failure(NotATicket)
      ensures manageChannels && Lookup(tickets, g, c).Some? ==>
        r == Success(PermissionChange(c, user, true, Some(true)))
    {
      if !manageChannels {
        return Failure(Unauthorized);
      }
      if g in tickets && c in tickets[g] {
        r := Success(PermissionChange(c, user, true, Some(true)));
      } else {
        r := Failure(NotATicket);
      }
    }

    /** `/remove`: the same two checks in the same order; on success the user may no longer read
        the channel. */
    method RemoveUser(g: GuildId, c: ChannelId, manageChannels: bool, user: UserId)
      returns (r: Result<PermissionChange, CommandError>)
      ensures !manageChannels ==> r == Failure(Unauthorized)
      ensures manageChannels && Lookup(tickets, g, c).None? ==> r == Failure(NotATicket)
      ensures manageChannels && Lookup(tickets, g, c).Some? ==>
        r == Success(PermissionChange(c, user, false, None))
    {
      if !manageChannels {
        return Failure(Unauthorized);
      }
      if g in tickets && c in tickets[g] {
        r := Success(PermissionChange(c, user, false, None));
      } else {
        r := Failure(NotATicket);
      }
    }

    /** `create_ticket_channel` once Discord has made the channel `c`: choose its name, write the
        record, and when the ticket wants a preview, record the id of the preview message posted. */
    method CreateTicketChannel(g: GuildId, c: ChannelId, user: UserId, userName: string, t: TicketType,
                               link: Option<string>, now: Timestamp, monthDay: string, previewMessage: MessageId)
      returns (name: string, previewPosted: bool)
      requires Valid()
      modifies this
      ensures Valid()
      ensures name == ChannelName(t, userName, monthDay)
      ensures previewPosted == WantsPreview(t, link)
      ensures tickets == if previewPosted
        then AfterPreview(AfterCreate(old(tickets), g, c, user, t, link, now), g, c, previewMessage)
        else AfterCreate(old(tickets), g, c, user, t, link, now)
    {
      name := ChannelName(t, userName, monthDay);
      CreateTicketRecord(g, c, user, t, link, now);
      previewPosted := WantsPreview(t, link);
      if previewPosted {
        SetPreviewMessageId(g, c, previewMessage);
      }
    }
  }

  /** A freshly opened ticket carries a preview id exactly when it wants a preview; every ticket
      opened from the panel with a link it asked for gets one, General Support and Check Referral
      tickets (opened without a link) never do. */
  lemma OpenedTicketPreview(s: Store, g: GuildId, c: ChannelId, user: UserId, t: TicketType,
                            link: Option<string>, now: Timestamp, m: MessageId)
    ensures var s1 := AfterCreate(s, g, c, user, t, link, now);
      var s2 := if WantsPreview(t, link) then AfterPreview(s1, g, c, m) else s1;
      && Lookup(s2, g, c).Some?
      && (Lookup(s2, g, c).value.previewMessageId == Some(m) <==> WantsPreview(t, link))
      && (Lookup(s2, g, c).value.previewMessageId.Some? <==> WantsPreview(t, link))
    ensures t.RequiresLink() && link.Some? && link.value != [] ==> WantsPreview(t, link)
    ensures !t.RequiresLink() && link.None? ==> !WantsPreview(t, link)
  {
  }
}
