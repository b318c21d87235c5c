/**
 * Emoji reactions: a pure classifier that picks what a reaction asks for,
 * and the executor steps that grant or revoke a role or pin or unpin the
 * message on the chat platform.
 *
 * The platform is the state the executor acts on: each guild's roles and
 * its members' role sets, and each channel's messages and pinned messages,
 * together with the permissions the bot holds there. A `RuntimeError` the
 * executor raises is a `Failed` outcome and is written to the logs
 * channel; any other exception leaves the handler and is `Escaped`.
 */
module Emoji {
  import opened Wrappers
  import opened Formatting

  const PushPin: string := "\U{1F4CC}"
  const YellowSquare: string := "\U{1F7E8}"
  const BlueSquare: string := "\U{1F7E6}"

  /** The emoji the bot reacts to at all. */
  const EmojiReactions: seq<string> := [PushPin, YellowSquare, BlueSquare]

  /** The role each role emoji grants. */
  const RoleIds: map<string, nat> := map[
    YellowSquare := 1294578631879692350,
    BlueSquare := 1294579583873449994
  ]

  /** What a reaction leads to. */
  datatype Action = Ignore | GrantRole | RevokeRole | Pin | Unpin

  /**
   * The decision of `process_emoji_reaction`: unknown emoji are ignored; a
   * role emoji on the roles message grants or revokes its role; anything
   * else recognised pins or unpins the message it is on.
   */
  function Classify(emoji: string, messageId: nat, rolesMessageId: nat, isAdded: bool): (a: Action)
    ensures a == Ignore <==> emoji !in EmojiReactions
    ensures (a == GrantRole || a == RevokeRole) <==> emoji in RoleIds && messageId == rolesMessageId
    ensures a != Ignore ==> (isAdded <==> (a == GrantRole || a == Pin))
  {
    if emoji !in EmojiReactions then Ignore
    else if emoji in RoleIds && messageId == rolesMessageId then
      if isAdded then GrantRole else RevokeRole
    else if isAdded then Pin
    else Unpin
  }

  /** The push-pin is not a role emoji: on the roles message too it pins and unpins. */
  lemma PushPinAlwaysPins(messageId: nat, rolesMessageId: nat, isAdded: bool)
    ensures Classify(PushPin, messageId, rolesMessageId, isAdded) == if isAdded then Pin else Unpin
  {
  }

  /** A role emoji away from the roles message asks for a pin, not a role. */
  lemma RoleEmojiElsewherePins(emoji: string, messageId: nat, rolesMessageId: nat, isAdded: bool)
    requires emoji in RoleIds && messageId != rolesMessageId
    ensures Classify(emoji, messageId, rolesMessageId, isAdded) == if isAdded then Pin else Unpin
  {
  }

  /** The member who reacted, as the add event carries it (absent on removal). */
  datatype MemberSnapshot = MemberSnapshot(name: string)

  /** A raw reaction event; `guildId` is absent outside a guild. */
  datatype ReactionEvent = ReactionEvent(
    emoji: string,
    messageId: nat,
    channelId: nat,
    guildId: Option<nat>,
    userId: nat,
    member: Option<MemberSnapshot>)

  /** A guild: its roles, each member's roles, and whether the bot may change them. */
  datatype Guild = Guild(roles: set<nat>, memberRoles: map<nat, set<nat>>, canManageRoles: bool)

  /** A channel: its messages, the pinned ones, and the bot's permissions there. */
  datatype Channel = Channel(
    messages: set<nat>,
    pinned: set<nat>,
    canReadHistory: bool,
    canManageMessages: bool)

  /** The exceptions that nothing in the handler catches. */
  datatype Uncaught = AttributeError | Forbidden | NotFound

  /** How an executor step ends: done, a caught `RuntimeError`, or an exception that escapes. */
  datatype Outcome = Done | Failed(message: string) | Escaped(error: Uncaught)

  /** `client.get_guild(guild_id)`: `None` outside a guild or for an unknown guild. */
  function GetGuild(guilds: map<nat, Guild>, guildId: Option<nat>): (g: Option<Guild>)
    ensures g.Some? <==> guildId.Some? && guildId.value in guilds
    ensures g.Some? ==> g.value == guilds[guildId.value]
  {
    if guildId.Some? && guildId.value in guilds then Some(guilds[guildId.value]) else None
  }

  /** The roles a member of the guild holds (none if the guild does not list them). */
  function RolesOf(guild: Guild, userId: nat): set<nat>
  {
    if userId in guild.memberRoles then guild.memberRoles[userId] else {}
  }

  /** The permission failure of a pin request; it names the channel. */
  function MissingPermissions(action: string, channelId: nat): (message: string)
    ensures action <= message
    ensures Contains(message, IntToString(channelId))
  {
    var message := action + ": Missing permissions for channel " + IntToString(channelId) + ".";
    ContainsMiddle(action + ": Missing permissions for channel ", IntToString(channelId), ".");
    message
  }

  /**
   * `member.add_roles` / `member.remove_roles`: the member's role set in
   * one guild becomes `roles`; the guild's roles, the bot's permission,
   * every other member and every other guild stay as they were.
   */
  function SetMemberRoles(guilds: map<nat, Guild>, guildId: nat, userId: nat, roles: set<nat>)
    : (updated: map<nat, Guild>)
    requires guildId in guilds
    ensures updated.Keys == guilds.Keys
    ensures userId in updated[guildId].memberRoles && RolesOf(updated[guildId], userId) == roles
    ensures updated[guildId].roles == guilds[guildId].roles
    ensures updated[guildId].canManageRoles == guilds[guildId].canManageRoles
    ensures forall member :: member != userId ==>
      && (member in updated[guildId].memberRoles <==> member in guilds[guildId].memberRoles)
      && RolesOf(updated[guildId], member) == RolesOf(guilds[guildId], member)
    ensures forall other :: other in guilds && other != guildId ==> updated[other] == guilds[other]
  {
    var guild := guilds[guildId];
    guilds[guildId := guild.(memberRoles := guild.memberRoles[userId := roles])]
  }

  /** Setting a member's roles to the set it already holds changes nothing. */
  lemma SetMemberRolesSame(guilds: map<nat, Guild>, guildId: nat, userId: nat)
    requires guildId in guilds && userId in guilds[guildId].memberRoles
    ensures SetMemberRoles(guilds, guildId, userId, RolesOf(guilds[guildId], userId)) == guilds
  {
    var guild := guilds[guildId];
    assert guild.memberRoles[userId := RolesOf(guild, userId)] == guild.memberRoles;
    assert guild.(memberRoles := guild.memberRoles) == guild;
  }

  /** Every check of `add_role` passes: there is a member, a guild, the role, and the right to give it. */
  predicate CanGrant(guilds: map<nat, Guild>, payload: ReactionEvent)
    requires payload.emoji in RoleIds
  {
    var guild := GetGuild(guilds, payload.guildId);
    payload.member.Some? && guild.Some? && RoleIds[payload.emoji] in guild.value.roles && guild.value.canManageRoles
  }

  /** How `add_role` ends on the platform state `guilds`. */
  function GrantOutcome(guilds: map<nat, Guild>, payload: ReactionEvent): (outcome: Outcome)
    requires payload.emoji in RoleIds
    ensures outcome.Done? <==> CanGrant(guilds, payload)
    ensures outcome == Escaped(AttributeError) <==> payload.member.None?
    ensures outcome == Escaped(Forbidden) <==>
      var guild := GetGuild(guilds, payload.guildId);
      payload.member.Some? && guild.Some? && RoleIds[payload.emoji] in guild.value.roles && !guild.value.canManageRoles
    ensures outcome.Failed? <==>
      var guild := GetGuild(guilds, payload.guildId);
      payload.member.Some? && (guild.None? || RoleIds[payload.emoji] !in guild.value.roles)
    ensures outcome.Failed? ==>
      outcome.message == "User " + payload.member.value.name + " added emoji " + payload.emoji +
        if GetGuild(guilds, payload.guildId).None? then ": Guild not found." else ": Role not found."
  {
    if payload.member.None? then Escaped(AttributeError)
    else
      var action := "User " + payload.member.value.name + " added emoji " + payload.emoji;
      var guild := GetGuild(guilds, payload.guildId);
      if guild.None? then Failed(action + ": Guild not found.")
      else if RoleIds[payload.emoji] !in guild.value.roles then Failed(action + ": Role not found.")
      else if !guild.value.canManageRoles then Escaped(Forbidden)
      else Done
  }

  /** The platform after a successful `add_role`. */
  function Granted(guilds: map<nat, Guild>, payload: ReactionEvent): (after: map<nat, Guild>)
    requires payload.emoji in RoleIds && CanGrant(guilds, payload)
    ensures payload.guildId.value in after
    ensures RolesOf(after[payload.guildId.value], payload.userId) ==
      RolesOf(guilds[payload.guildId.value], payload.userId) + {RoleIds[payload.emoji]}
  {
    var guildId := payload.guildId.value;
    SetMemberRoles(guilds, guildId, payload.userId, RolesOf(guilds[guildId], payload.userId) + {RoleIds[payload.emoji]})
  }

  /** A second identical reaction-add succeeds again and changes nothing more. */
  lemma GrantTwice(guilds: map<nat, Guild>, payload: ReactionEvent)
    requires payload.emoji in RoleIds && CanGrant(guilds, payload)
    ensures CanGrant(Granted(guilds, payload), payload)
    ensures Granted(Granted(guilds, payload), payload) == Granted(guilds, payload)
  {
    var after := Granted(guilds, payload);
    var guildId := payload.guildId.value;
    assert RolesOf(after[guildId], payload.userId) + {RoleIds[payload.emoji]} == RolesOf(after[guildId], payload.userId);
    SetMemberRolesSame(after, guildId, payload.userId);
  }

  /** Every check of `remove_role` passes: a guild, the member by id, the role, and the right to take it. */
  predicate CanRevoke(guilds: map<nat, Guild>, payload: ReactionEvent)
    requires payload.emoji in RoleIds
  {
    var guild := GetGuild(guilds, payload.guildId);
    && guild.Some? && payload.userId in guild.value.memberRoles
    && RoleIds[payload.emoji] in guild.value.roles && guild.value.canManageRoles
  }

  /** How `remove_role` ends on the platform state `guilds`. */
  function RevokeOutcome(guilds: map<nat, Guild>, payload: ReactionEvent): (outcome: Outcome)
    requires payload.emoji in RoleIds
    ensures outcome.Done? <==> CanRevoke(guilds, payload)
    ensures outcome.Escaped? ==> outcome == Escaped(Forbidden)
    ensures outcome.Failed? <==>
      var guild := GetGuild(guilds, payload.guildId);
      guild.None? || payload.userId !in guild.value.memberRoles || RoleIds[payload.emoji] !in guild.value.roles
    ensures outcome.Failed? ==>
      var guild := GetGuild(guilds, payload.guildId);
      outcome.message == "User removed emoji " + payload.emoji +
        if guild.None? then ": Guild not found."
        else if payload.userId !in guild.value.memberRoles then ": Unexisting user ID '" + IntToString(payload.userId) + "'."
        else ": Role not found."
  {
    var action := "User removed emoji " + payload.emoji;
    var guild := GetGuild(guilds, payload.guildId);
    if guild.None? then Failed(action + ": Guild not found.")
    else if payload.userId !in guild.value.memberRoles then
      Failed(action + ": Unexisting user ID '" + IntToString(payload.userId) + "'.")
    else if RoleIds[payload.emoji] !in guild.value.roles then Failed(action + ": Role not found.")
    else if !guild.value.canManageRoles then Escaped(Forbidden)
    else Done
  }

  /** The platform after a successful `remove_role`. */
  function Revoked(guilds: map<nat, Guild>, payload: ReactionEvent): (after: map<nat, Guild>)
    requires payload.emoji in RoleIds && CanRevoke(guilds, payload)
    ensures payload.guildId.value in after
    ensures RolesOf(after[payload.guildId.value], payload.userId) ==
      RolesOf(guilds[payload.guildId.value], payload.userId) - {RoleIds[payload.emoji]}
  {
    var guildId := payload.guildId.value;
    SetMemberRoles(guilds, guildId, payload.userId, RolesOf(guilds[guildId], payload.userId) - {RoleIds[payload.emoji]})
  }

  /** A second identical reaction-removal succeeds again and changes nothing more. */
  lemma RevokeTwice(guilds: map<nat, Guild>, payload: ReactionEvent)
    requires payload.emoji in RoleIds && CanRevoke(guilds, payload)
    ensures CanRevoke(Revoked(guilds, payload), payload)
    ensures Revoked(Revoked(guilds, payload), payload) == Revoked(guilds, payload)
  {
    var after := Revoked(guilds, payload);
    var guildId := payload.guildId.value;
    assert RolesOf(after[guildId], payload.userId) - {RoleIds[payload.emoji]} == RolesOf(after[guildId], payload.userId);
    SetMemberRolesSame(after, guildId, payload.userId);
  }

  /** Removing a role the member just gained (and did not hold before) restores the platform. */
  lemma GrantThenRevoke(guilds: map<nat, Guild>, payload: ReactionEvent)
    requires payload.emoji in RoleIds && CanGrant(guilds, payload)
    requires payload.userId in guilds[payload.guildId.value].memberRoles
    requires RoleIds[payload.emoji] !in RolesOf(guilds[payload.guildId.value], payload.userId)
    ensures CanRevoke(Granted(guilds, payload), payload)
    ensures Revoked(Granted(guilds, payload), payload) == guilds
  {
    var after := Granted(guilds, payload);
    var guildId := payload.guildId.value;
    var roles := RolesOf(guilds[guildId], payload.userId);
    assert (roles + {RoleIds[payload.emoji]}) - {RoleIds[payload.emoji]} == roles;
    var guild := guilds[guildId];
    var grown := guild.memberRoles[payload.userId := roles + {RoleIds[payload.emoji]}];
    assert after == guilds[guildId := guild.(memberRoles := grown)];
    assert grown[payload.userId := roles] == guild.memberRoles;
    assert guild.(memberRoles := guild.memberRoles) == guild;
    assert guilds[guildId := guild] == guilds;
  }

  /** The action text of `handle_pin_request`: the member's name to pin, the user id to unpin. */
  function PinAction(payload: ReactionEvent, pin: bool): string
    requires !pin || payload.member.Some?
  {
    if pin then "User " + payload.member.value.name + " wants to pin message"
    else "User " + IntToString(payload.userId) + " wants to unpin message"
  }

  /** Every step of `handle_pin_request` goes through: the channel, the message and both permissions. */
  predicate CanPin(channels: map<nat, Channel>, payload: ReactionEvent, pin: bool)
  {
    && (!pin || payload.member.Some?)
    && payload.channelId in channels
    && channels[payload.channelId].canReadHistory
    && payload.messageId in channels[payload.channelId].messages
    && channels[payload.channelId].canManageMessages
  }

  /** How `handle_pin_request` ends on the platform state `channels`. */
  function PinOutcome(channels: map<nat, Channel>, payload: ReactionEvent, pin: bool): (outcome: Outcome)
    ensures outcome.Done? <==> CanPin(channels, payload, pin)
    ensures outcome == Escaped(AttributeError) <==>
      (pin && payload.member.None?) || ((!pin || payload.member.Some?) && payload.channelId !in channels)
    ensures outcome == Escaped(NotFound) <==>
      && (!pin || payload.member.Some?) && payload.channelId in channels
      && channels[payload.channelId].canReadHistory && payload.messageId !in channels[payload.channelId].messages
    ensures outcome.Failed? <==>
      && (!pin || payload.member.Some?) && payload.channelId in channels
      && var channel := channels[payload.channelId];
      (!channel.canReadHistory || (payload.messageId in channel.messages && !channel.canManageMessages))
    ensures outcome.Failed? ==> outcome.message == MissingPermissions(PinAction(payload, pin), payload.channelId)
  {
    if pin && payload.member.None? then Escaped(AttributeError)
    else if payload.channelId !in channels then Escaped(AttributeError)
    else
      var channel := channels[payload.channelId];
      if !channel.canReadHistory then Failed(MissingPermissions(PinAction(payload, pin), payload.channelId))
      else if payload.messageId !in channel.messages then Escaped(NotFound)
      else if !channel.canManageMessages then Failed(MissingPermissions(PinAction(payload, pin), payload.channelId))
      else Done
  }

  /**
   * `message.pin()` / `message.unpin()`: the message is pinned or not; no
   * other message's pin, no other channel and no permission changes.
   */
  function SetPinned(channels: map<nat, Channel>, channelId: nat, messageId: nat, pin: bool): (after: map<nat, Channel>)
    requires channelId in channels
    ensures after.Keys == channels.Keys
    ensures messageId in after[channelId].pinned <==> pin
    ensures forall m :: m != messageId ==> (m in after[channelId].pinned <==> m in channels[channelId].pinned)
    ensures after[channelId].messages == channels[channelId].messages
    ensures after[channelId].canReadHistory == channels[channelId].canReadHistory
    ensures after[channelId].canManageMessages == channels[channelId].canManageMessages
    ensures forall other :: other in channels && other != channelId ==> after[other] == channels[other]
  {
    var channel := channels[channelId];
    channels[channelId := channel.(pinned := if pin then channel.pinned + {messageId} else channel.pinned - {messageId})]
  }

  /** Pinning (or unpinning) a second time succeeds again and changes nothing more. */
  lemma PinTwice(channels: map<nat, Channel>, payload: ReactionEvent, pin: bool)
    requires CanPin(channels, payload, pin)
    ensures CanPin(SetPinned(channels, payload.channelId, payload.messageId, pin), payload, pin)
    ensures var after := SetPinned(channels, payload.channelId, payload.messageId, pin);
      SetPinned(after, payload.channelId, payload.messageId, pin) == after
  {
    var after := SetPinned(channels, payload.channelId, payload.messageId, pin);
    var channel := after[payload.channelId];
    if pin {
      assert channel.pinned + {payload.messageId} == channel.pinned;
    } else {
      assert channel.pinned - {payload.messageId} == channel.pinned;
    }
    assert channel.(pinned := channel.pinned) == channel;
  }

  /** Unpinning a message that was just pinned (and was not pinned before) restores the channels. */
  lemma PinThenUnpin(channels: map<nat, Channel>, payload: ReactionEvent)
    requires CanPin(channels, payload, true)
    requires payload.messageId !in channels[payload.channelId].pinned
    ensures CanPin(SetPinned(channels, payload.channelId, payload.messageId, true), payload, false)
    ensures SetPinned(SetPinned(channels, payload.channelId, payload.messageId, true), payload.channelId, payload.messageId, false)
      == channels
  {
    var channel := channels[payload.channelId];
    assert (channel.pinned + {payload.messageId}) - {payload.messageId} == channel.pinned;
    assert channel.(pinned := channel.pinned) == channel;
  }

  /** The bot client's view of the platform. */
  class Client {
    var guilds: map<nat, Guild>
    var channels: map<nat, Channel>

    constructor (guilds: map<nat, Guild>, channels: map<nat, Channel>)
      ensures this.guilds == guilds && this.channels == channels
    {
      this.guilds := guilds;
      this.channels := channels;
    }

    /**
     * `add_role`: the acting member (from the event) gets the emoji's role.
     * The guild is checked first, then the role; either failing means no
     * call to `add_roles`.
     */
    method AddRole(payload: ReactionEvent) returns (outcome: Outcome)
      requires payload.emoji in RoleIds
      modifies this
      ensures channels == old(channels)
      ensures !outcome.Done? ==> guilds == old(guilds)
      ensures outcome == GrantOutcome(old(guilds), payload)
      ensures outcome.Done? <==> CanGrant(old(guilds), payload)
      ensures outcome.Done? ==> guilds == Granted(old(guilds), payload)
    {
      if payload.member.None? {
        return Escaped(AttributeError);
      }
      var action := "User " + payload.member.value.name + " added emoji " + payload.emoji;
      var guild := GetGuild(guilds, payload.guildId);
      if guild.None? {
        return Failed(action + ": Guild not found.");
      }
      var role := RoleIds[payload.emoji];
      if role !in guild.value.roles {
        return Failed(action + ": Role not found.");
      }
      if !guild.value.canManageRoles {
        return Escaped(Forbidden);
      }
      var g := guild.value;
      guilds := guilds[payload.guildId.value := g.(memberRoles := g.memberRoles[payload.userId := RolesOf(g, payload.userId) + {role}])];
      outcome := Done;
    }

    /**
     * `remove_role`: the member is looked up by the event's user id. The
     * guild is checked first, then the member, then the role; any failure
     * means no call to `remove_roles`.
     */
    method RemoveRole(payload: ReactionEvent) returns (outcome: Outcome)
      requires payload.emoji in RoleIds
      modifies this
      ensures channels == old(channels)
      ensures !outcome.Done? ==> guilds == old(guilds)
      ensures outcome == RevokeOutcome(old(guilds), payload)
      ensures outcome.Done? <==> CanRevoke(old(guilds), payload)
      ensures outcome.Done? ==> guilds == Revoked(old(guilds), payload)
    {
      var action := "User removed emoji " + payload.emoji;
      var guild := GetGuild(guilds, payload.guildId);
      if guild.None? {
        return Failed(action + ": Guild not found.");
      }
      var role := RoleIds[payload.emoji];
      var g := guild.value;
      if payload.userId !in g.memberRoles {
        return Failed(action + ": Unexisting user ID '" + IntToString(payload.userId) + "'.");
      }
      if role !in g.roles {
        return Failed(action + ": Role not found.");
      }
      if !g.canManageRoles {
        return Escaped(Forbidden);
      }
      guilds := guilds[payload.guildId.value := g.(memberRoles := g.memberRoles[payload.userId := g.memberRoles[payload.userId] - {role}])];
      outcome := Done;
    }

    /**
     * `handle_pin_request`: fetch the message and pin or unpin it. Only a
     * permission refusal is turned into a failure naming the channel; an
     * unknown channel or message escapes.
     */
    method HandlePinRequest(payload: ReactionEvent, pin: bool) returns (outcome: Outcome)
      modifies this
      ensures guilds == old(guilds)
      ensures !outcome.Done? ==> channels == old(channels)
      ensures outcome == PinOutcome(old(channels), payload, pin)
      ensures outcome.Done? <==> CanPin(old(channels), payload, pin)
      ensures outcome.Done? ==> channels == SetPinned(old(channels), payload.channelId, payload.messageId, pin)
    {
      if pin && payload.member.None? {
        return Escaped(AttributeError);
      }
      var action := PinAction(payload, pin);
      if payload.channelId !in channels {
        // `get_channel` gave `None`, which has no `fetch_message`
        return Escaped(AttributeError);
      }
      var channel := channels[payload.channelId];
      if !channel.canReadHistory {
        return Failed(MissingPermissions(action, payload.channelId));
      }
      if payload.messageId !in channel.messages {
        return Escaped(NotFound);
      }
      if !channel.canManageMessages {
        return Failed(MissingPermissions(action, payload.channelId));
      }
      var pinned := if pin then channel.pinned + {payload.messageId} else channel.pinned - {payload.messageId};
      channels := channels[payload.channelId := channel.(pinned := pinned)];
      outcome := Done;
    }

    /**
     * `process_emoji_reaction`: classify, run the chosen step, and log a
     * `RuntimeError` instead of raising it. The call returns normally
     * unless `outcome` is `Escaped`, whose exception propagates.
     */
    method ProcessEmojiReaction(payload: ReactionEvent, rolesMessageId: nat, isAdded: bool, logs: LogsChannel)
      returns (action: Action, outcome: Outcome)
      modifies this, logs
      ensures action == Classify(payload.emoji, payload.messageId, rolesMessageId, isAdded)
      ensures action == Ignore ==> outcome == Done && guilds == old(guilds) && channels == old(channels)
      ensures action == GrantRole || action == RevokeRole ==> channels == old(channels)
      ensures action == Pin || action == Unpin ==> guilds == old(guilds)
      ensures outcome.Failed? ==>
        logs.messages == old(logs.messages) + [outcome.message] && guilds == old(guilds) && channels == old(channels)
      ensures !outcome.Failed? ==> logs.messages == old(logs.messages)
      ensures action == GrantRole ==>
        && outcome == GrantOutcome(old(guilds), payload)
        && guilds == if outcome.Done? then Granted(old(guilds), payload) else old(guilds)
      ensures action == RevokeRole ==>
        && outcome == RevokeOutcome(old(guilds), payload)
        && guilds == if outcome.Done? then Revoked(old(guilds), payload) else old(guilds)
      ensures action == Pin || action == Unpin ==>
        && outcome == PinOutcome(old(channels), payload, action == Pin)
        && channels == if outcome.Done? then SetPinned(old(channels), payload.channelId, payload.messageId, action == Pin)
                       else old(channels)
    {
      action := Classify(payload.emoji, payload.messageId, rolesMessageId, isAdded);
      match action {
        case Ignore => return Ignore, Done;
        case GrantRole => outcome := AddRole(payload);
        case RevokeRole => outcome := RemoveRole(payload);
        case Pin => outcome := HandlePinRequest(payload, true);
        case Unpin => outcome := HandlePinRequest(payload, false);
      }
      if outcome.Failed? {
        logs.LogBotAction(outcome.message);
      }
    }
  }
}
