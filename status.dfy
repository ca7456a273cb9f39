/** The per-guild open/closed status, the choice of the channel the status banner goes to, and
    the `/status` command that ties them together. */
module Status {
  import opened Common
  import opened Text

  /** One guild's record in the status document: open or closed, and where the current banner is. */
  datatype ServerStatus = ServerStatus(isOpen: bool, messageId: Option<MessageId>, channelId: Option<ChannelId>)

  /** What a guild with no record reads as. */
  const DefaultStatus: ServerStatus := ServerStatus(false, None, None)

  /** The whole status document. */
  type StatusTable = map<GuildId, ServerStatus>

  /** `get_server_status` on a given document. */
  function StatusOf(m: StatusTable, g: GuildId): ServerStatus {
    if g in m then m[g] else DefaultStatus
  }

  /** A posted banner: the channel it is in and its message id. */
  datatype BannerRef = BannerRef(channel: ChannelId, message: MessageId)

  /** The earlier banner `/status` tries to delete: only when both stored ids are truthy, that is
      present and non-zero. */
  function StaleBanner(st: ServerStatus): (r: Option<BannerRef>)
    ensures r.Some? <==>
      st.messageId.Some? && st.messageId.value != 0 && st.channelId.Some? && st.channelId.value != 0
    ensures r.Some? ==> r.value == BannerRef(st.channelId.value, st.messageId.value)
  {
    match (st.messageId, st.channelId)
    case (Some(m), Some(c)) => if m != 0 && c != 0 then Some(BannerRef(c, m)) else None
    case _ => None
  }

  /** An unknown guild reads as closed, with no banner and nothing to delete. */
  lemma UnknownGuildIsClosed(m: StatusTable, g: GuildId)
    requires g !in m
    ensures !StatusOf(m, g).isOpen && StatusOf(m, g).messageId.None? && StatusOf(m, g).channelId.None?
    ensures StaleBanner(StatusOf(m, g)).None?
  {
  }

  /** A write replaces the guild's whole record and no other guild's. */
  lemma WriteReplaces(m: StatusTable, g: GuildId, st: ServerStatus, g': GuildId)
    ensures StatusOf(m[g := st], g) == st
    ensures g' != g ==> StatusOf(m[g := st], g') == StatusOf(m, g')
  {
  }

  /** Open, closed, open again: only the third banner is remembered, and it is the one the next
      command will delete. */
  lemma ThreeToggles(m: StatusTable, g: GuildId, c1: ChannelId, m1: MessageId, c2: ChannelId, m2: MessageId,
                     c3: ChannelId, m3: MessageId)
    requires c3 != 0 && m3 != 0
    ensures var after := m[g := ServerStatus(true, Some(m1), Some(c1))]
                          [g := ServerStatus(false, Some(m2), Some(c2))]
                          [g := ServerStatus(true, Some(m3), Some(c3))];
      && StatusOf(after, g) == ServerStatus(true, Some(m3), Some(c3))
      && StaleBanner(StatusOf(after, g)) == Some(BannerRef(c3, m3))
      && after.Keys == m.Keys + {g}
  {
  }

  // ---------------------------------------------------------------- choosing the status channel

  datatype Channel = Channel(id: ChannelId, name: string)

  /** `discord.utils.get(channels, name=name)`: the position of the first channel with that
      exact name, or `|cs|` when there is none. */
  function NamedIndex(cs: seq<Channel>, name: string): (k: nat)
    ensures k <= |cs|
    ensures forall j :: 0 <= j < k ==> cs[j].name != name
    ensures k < |cs| ==> cs[k].name == name
  {
    if cs == [] then 0
    else if cs[0].name == name then 0
    else 1 + NamedIndex(cs[1..], name)
  }

  /** A text channel the fallback search accepts: its lower-cased name contains "order" or "status". */
  predicate IsFallbackName(name: string) {
    Contains(Lower(name), "order") || Contains(Lower(name), "status")
  }

  /** The position of the first text channel the fallback accepts, or `|cs|` when there is none. */
  function FallbackIndex(cs: seq<Channel>): (k: nat)
    ensures k <= |cs|
    ensures forall j :: 0 <= j < k ==> !IsFallbackName(cs[j].name)
    ensures k < |cs| ==> IsFallbackName(cs[k].name)
  {
    if cs == [] then 0
    else if IsFallbackName(cs[0].name) then 0
    else 1 + FallbackIndex(cs[1..])
  }

  /** The first text channel the fallback accepts, if any. */
  function FallbackChannel(cs: seq<Channel>): Option<Channel> {
    var k := FallbackIndex(cs);
    if k < |cs| then Some(cs[k]) else None
  }

  /** The channel the status banner goes to: the first channel named "order-status" among all the
      guild's channels, else the first text channel the fallback accepts, else none. */
  function StatusChannelFor(channels: seq<Channel>, textChannels: seq<Channel>): Option<Channel> {
    var k := NamedIndex(channels, StatusChannelName);
    if k < |channels| then Some(channels[k]) else FallbackChannel(textChannels)
  }

  /** The preferred name wins whenever some channel carries it; otherwise the first accepted
      text channel is chosen; none is found exactly when neither search succeeds. */
  lemma StatusChannelChoice(channels: seq<Channel>, textChannels: seq<Channel>)
    ensures var r := StatusChannelFor(channels, textChannels);
      && ((exists i :: 0 <= i < |channels| && channels[i].name == StatusChannelName) ==>
            r.Some? && r.value in channels && r.value.name == StatusChannelName)
      && ((forall i :: 0 <= i < |channels| ==> channels[i].name != StatusChannelName) ==>
            (r.Some? ==> r.value in textChannels && IsFallbackName(r.value.name)))
      && (r.None? <==>
            (forall i :: 0 <= i < |channels| ==> channels[i].name != StatusChannelName)
            && (forall j :: 0 <= j < |textChannels| ==> !IsFallbackName(textChannels[j].name)))
  {
  }

  /** The fallback loop of `/status`: scan the text channels in order and stop at the first one
      whose lower-cased name contains "order" or "status". */
  method FindFallbackChannel(textChannels: seq<Channel>) returns (r: Option<Channel>)
    ensures r == FallbackChannel(textChannels)
  {
    r := None;
    var i := 0;
    while i < |textChannels|
      invariant 0 <= i <= |textChannels|
      invariant forall j :: 0 <= j < i ==> !IsFallbackName(textChannels[j].name)
    {
      var channel := textChannels[i];
      var lowered := Lower(channel.name);
      if Contains(lowered, "order") || Contains(lowered, "status") {
        r := Some(channel);
        break;
      }
      i := i + 1;
    }
  }

  /** Status-channel resolution as `/status` performs it. */
  method FindStatusChannel(channels: seq<Channel>, textChannels: seq<Channel>) returns (r: Option<Channel>)
    ensures r == StatusChannelFor(channels, textChannels)
  {
    var k := NamedIndex(channels, StatusChannelName);
    if k < |channels| {
      r := Some(channels[k]);
    } else {
      r := FindFallbackChannel(textChannels);
    }
  }

  // ---------------------------------------------------------------- the status document

  /** The status document, one record per guild, each write replacing the guild's whole record. */
  class StatusStore {
    var statuses: StatusTable

    constructor ()
      ensures statuses == map[]
    {
      statuses := map[];
    }

    /** `get_server_status`. */
    method GetServerStatus(g: GuildId) returns (r: ServerStatus)
      ensures g !in statuses ==> r == DefaultStatus
      ensures g in statuses ==> r == statuses[g]
    {
      var snapshot := statuses;
      if g in snapshot {
        r := snapshot[g];
      } else {
        r := ServerStatus(false, None, None);
      }
    }

    /** `set_server_status`: replace the guild's record and return what was stored. */
    method SetServerStatus(g: GuildId, isOpen: bool, messageId: Option<MessageId>, channelId: Option<ChannelId>)
      returns (r: ServerStatus)
      modifies this
      ensures r == ServerStatus(isOpen, messageId, channelId)
      ensures statuses == old(statuses)[g := r]
    {
      var snapshot := statuses;
      snapshot := snapshot[g := ServerStatus(isOpen, messageId, channelId)];
      statuses := snapshot;
      r := snapshot[g];
    }

    /** `/status open|closed`, once Discord has posted the new banner as message `sent`: refuse an
        actor without manage-messages, then a guild with no status channel, writing nothing in
        either case; otherwise name the old banner to delete (best effort) and store the new one. */
    method SetStatus(g: GuildId, manageMessages: bool, state: string, channels: seq<Channel>,
                     textChannels: seq<Channel>, sent: MessageId)
      returns (r: Result<ServerStatus, CommandError>, stale: Option<BannerRef>)
      modifies this
      ensures !manageMessages ==> r == Failure(Unauthorized) && stale.None? && statuses == old(statuses)
      ensures manageMessages && StatusChannelFor(channels, textChannels).None? ==>
        r == Failure(StatusChannelNotFound) && stale.None? && statuses == old(statuses)
      ensures manageMessages && StatusChannelFor(channels, textChannels).Some? ==>
        && r == Success(ServerStatus(state == "open", Some(sent), Some(StatusChannelFor(channels, textChannels).value.id)))
        && stale == StaleBanner(StatusOf(old(statuses), g))
        && statuses == old(statuses)[g := r.value]
    {
      stale := None;
      if !manageMessages {
        return Failure(Unauthorized), None;
      }
      var isOpen := state == "open";
      var channel := FindStatusChannel(channels, textChannels);
      if channel.None? {
        return Failure(StatusChannelNotFound), None;
      }
      var current := GetServerStatus(g);
      stale := StaleBanner(current);
      var stored := SetServerStatus(g, isOpen, Some(sent), Some(channel.value.id));
      r := Success(stored);
    }
  }
}
