/** The readiness state of a Guilded client (`Me`, `IsPrepared` and the
    `Prepared` stream), its length guards on request fields, and the table of
    socket event names it recognises. */
module Client {
  import opened Wrappers
  import opened Utf16

  /** The bot's own user, as the welcome event carries it. */
  datatype Me = Me(id: string, name: string)

  /** The kinds of disconnection the WebSocket library reports. */
  datatype DisconnectionType = Exit | Lost | NoMessageReceived | Error | ByUser | ByServer

  /** An event of the connection that the readiness handlers observe. */
  datatype ConnectionEvent =
    | Welcomed(user: Me)
    | Disconnected(disconnectionType: DisconnectionType)

  /** Every disconnection except a heartbeat time-out makes the client unprepared. */
  predicate Resets(e: ConnectionEvent) {
    e.Disconnected? && e.disconnectionType != NoMessageReceived
  }

  /** `IsPrepared` after the events of `h`. */
  function PreparedAfter(h: seq<ConnectionEvent>): bool {
    if h == [] then false
    else
      var last := h[|h| - 1];
      if last.Welcomed? then true
      else if Resets(last) then false
      else PreparedAfter(h[..|h| - 1])
  }

  /** The values pushed on `Prepared` during the events of `h`. */
  function PreparedEmissions(h: seq<ConnectionEvent>): seq<Me> {
    if h == [] then []
    else
      var last := h[|h| - 1];
      PreparedEmissions(h[..|h| - 1]) +
        (if last.Welcomed? && !PreparedAfter(h[..|h| - 1]) then [last.user] else [])
  }

  /** `Me` after the events of `h`: the user of the latest welcome. */
  function MeAfter(h: seq<ConnectionEvent>): Option<Me> {
    if h == [] then None
    else if h[|h| - 1].Welcomed? then Some(h[|h| - 1].user)
    else MeAfter(h[..|h| - 1])
  }

  /** The index of the last resetting disconnection in `h`, or -1 if there is none. */
  function LastReset(h: seq<ConnectionEvent>): (r: int)
    ensures -1 <= r < |h|
    ensures r >= 0 ==> Resets(h[r])
    ensures forall j :: r < j < |h| ==> !Resets(h[j])
  {
    if h == [] then -1
    else if Resets(h[|h| - 1]) then |h| - 1
    else LastReset(h[..|h| - 1])
  }

  /** The client is prepared exactly when a welcome arrived after the last
      resetting disconnection. */
  lemma {:induction false} PreparedIffWelcomedSinceReset(h: seq<ConnectionEvent>)
    ensures PreparedAfter(h) <==> exists j :: LastReset(h) < j < |h| && h[j].Welcomed?
  {
    if h != [] {
      var p := h[..|h| - 1];
      PreparedIffWelcomedSinceReset(p);
      if !h[|h| - 1].Welcomed? && !Resets(h[|h| - 1]) {
        assert LastReset(h) == LastReset(p);
        if PreparedAfter(h) {
          var j :| LastReset(p) < j < |p| && p[j].Welcomed?;
          assert h[j] == p[j];
        } else {
          forall j | LastReset(h) < j < |h| ensures !h[j].Welcomed? {
            if j < |p| { assert h[j] == p[j]; }
          }
        }
      } else if h[|h| - 1].Welcomed? {
        assert LastReset(h) < |h| - 1;
      }
    }
  }

  /** The welcome at index `i` pushes a value on `Prepared`. */
  predicate EmitsAt(h: seq<ConnectionEvent>, i: nat) {
    i < |h| && h[i].Welcomed? && !PreparedAfter(h[..i])
  }

  /** Between two welcomes that both push on `Prepared` lies a resetting disconnection. */
  lemma NoEmissionWithoutReset(h: seq<ConnectionEvent>, i: nat, k: nat)
    requires i < k && EmitsAt(h, i) && EmitsAt(h, k)
    ensures exists j :: i < j < k && Resets(h[j])
  {
    var p := h[..k];
    PreparedIffWelcomedSinceReset(p);
    assert p[i] == h[i];
    var r := LastReset(p);
    assert i <= r;
    assert r != i;
    assert p[r] == h[r];
  }

  /** The number of resetting disconnections in `h`. */
  function ResetCount(h: seq<ConnectionEvent>): nat {
    if h == [] then 0
    else ResetCount(h[..|h| - 1]) + (if Resets(h[|h| - 1]) then 1 else 0)
  }

  /** `Prepared` fires at most once per resetting disconnection, plus the first time. */
  lemma {:induction false} EmissionsBoundedByResets(h: seq<ConnectionEvent>)
    ensures |PreparedEmissions(h)| + (if PreparedAfter(h) then 0 else 1) <= ResetCount(h) + 1
  {
    if h != [] {
      EmissionsBoundedByResets(h[..|h| - 1]);
    }
  }

  /** The readiness part of `AbstractGuildedClient`. `prepared` records what was
      pushed on `PreparedSubject`; `history` is the ghost log of the events seen. */
  class AbstractGuildedClient {
    var me: Option<Me>
    var isPrepared: bool
    var prepared: seq<Me>
    ghost var history: seq<ConnectionEvent>

    ghost predicate Valid()
      reads this
    {
      && isPrepared == PreparedAfter(history)
      && prepared == PreparedEmissions(history)
      && me == MeAfter(history)
    }

    constructor ()
      ensures Valid() && history == []
      ensures me == None && !isPrepared && prepared == []
    {
      me, isPrepared, prepared := None, false, [];
      history := [];
    }

    /** The welcome handler: `Me` is always replaced; `Prepared` fires only when
        the client was not prepared, and the client is prepared afterwards. */
    method OnWelcome(user: Me)
      requires Valid()
      modifies this
      ensures Valid() && history == old(history) + [Welcomed(user)]
      ensures me == Some(user) && isPrepared
      ensures prepared == old(prepared) + (if old(isPrepared) then [] else [user])
    {
      ghost var h := history + [Welcomed(user)];
      assert h[..|h| - 1] == history;
      me := Some(user);
      if !isPrepared {
        prepared := prepared + [user];
        isPrepared := true;
      }
      history := h;
    }

    /** The disconnection handler: any disconnection but a heartbeat time-out
        clears `IsPrepared`; nothing else changes. */
    method OnDisconnected(disconnectionType: DisconnectionType)
      requires Valid()
      modifies this
      ensures Valid() && history == old(history) + [Disconnected(disconnectionType)]
      ensures isPrepared == (old(isPrepared) && disconnectionType == NoMessageReceived)
      ensures me == old(me) && prepared == old(prepared)
    {
      ghost var h := history + [Disconnected(disconnectionType)];
      assert h[..|h| - 1] == history;
      if disconnectionType != NoMessageReceived {
        isPrepared := false;
      }
      history := h;
    }
  }

  /** A request field's length limit, a C# `short`. */
  newtype Int16 = x: int | -0x8000 <= x < 0x8000

  /** The `ArgumentOutOfRangeException` of a length guard. */
  datatype LimitError = OutOfRange(paramName: string, value: string, limit: Int16)

  /** `EnforceLimit`: refuses a value whose `Length`, in UTF-16 code units, passes
      the limit; a value exactly as long as the limit passes. */
  function EnforceLimit(name: string, value: string, limit: Int16): (r: Outcome<LimitError>)
    ensures r.Fail? <==> Utf16Length(value) > limit as int
    ensures r.Fail? ==> r.error == OutOfRange(name, value, limit)
  {
    if Utf16Length(value) > limit as int then Fail(OutOfRange(name, value, limit)) else Pass
  }

  /** `EnforceLimitOnNullable`: a null value passes; any other is `EnforceLimit`'s. */
  function EnforceLimitOnNullable(name: string, value: Option<string>, limit: Int16): (r: Outcome<LimitError>)
    ensures value.None? ==> r.Pass?
    ensures value.Some? ==> r == EnforceLimit(name, value.value, limit)
  {
    if value.Some? then EnforceLimit(name, value.value, limit) else Pass
  }

  /** An emoji is one character but two code units, so it does not fit a limit of one. */
  lemma SurrogatePairCountsTwice(name: string)
    ensures EnforceLimit(name, "\U{1F600}", 1).Fail?
    ensures EnforceLimit(name, "\U{1F600}", 2).Pass?
  {
    assert "\U{1F600}"[1..] == [];
  }

  /** A value that passes a guard still passes with any larger limit, and any
      prefix of it passes the same limit. */
  lemma EnforceLimitMonotone(name: string, value: string, limit: Int16, larger: Int16, k: nat)
    requires EnforceLimit(name, value, limit).Pass? && limit <= larger && k <= |value|
    ensures EnforceLimit(name, value, larger).Pass?
    ensures EnforceLimit(name, value[..k], limit).Pass?
  {
    Utf16LengthPrefix(value, k);
  }

  // ---------------------------------------------------------------------------
  // The event table

  datatype SocketOpcode = WelcomeOpcode | ResumeOpcode

  /** A key of the event table: an opcode, or an event name (case-sensitive). */
  datatype EventKey = Opcode(opcode: SocketOpcode) | EventName(name: string)

  /** The payload type each event is decoded into. */
  datatype EventType =
    | WelcomeEvent | ResumeEvent
    | MemberJoinedEvent | MemberUpdatedEvent | RolesUpdatedEvent | XpAddedEvent
    | MemberRemovedEvent | MemberBanEvent | ChannelEvent | WebhookEvent
    | MessageEvent | MessageDeletedEvent | MessageReactionEvent
    | ListItemEvent | DocEvent | CalendarEventEvent

  /** The `GuildedEvents` table built by the client's constructor. */
  function GuildedEvents(): map<EventKey, EventType> {
    map[
      Opcode(WelcomeOpcode) := WelcomeEvent,
      Opcode(ResumeOpcode) := ResumeEvent,
      EventName("TeamMemberJoined") := MemberJoinedEvent,
      EventName("TeamMemberUpdated") := MemberUpdatedEvent,
      EventName("teamRolesUpdated") := RolesUpdatedEvent,
      EventName("TeamXpAdded") := XpAddedEvent,
      EventName("TeamMemberRemoved") := MemberRemovedEvent,
      EventName("TeamMemberBanned") := MemberBanEvent,
      EventName("TeamMemberUnbanned") := MemberBanEvent,
      EventName("TeamChannelCreated") := ChannelEvent,
      EventName("TeamChannelUpdated") := ChannelEvent,
      EventName("TeamChannelDeleted") := ChannelEvent,
      EventName("TeamWebhookCreated") := WebhookEvent,
      EventName("TeamWebhookUpdated") := WebhookEvent,
      EventName("ChatMessageCreated") := MessageEvent,
      EventName("ChatMessageUpdated") := MessageEvent,
      EventName("ChatMessageDeleted") := MessageDeletedEvent,
      EventName("ChannelMessageReactionCreated") := MessageReactionEvent,
      EventName("ChannelMessageReactionDeleted") := MessageReactionEvent,
      EventName("ListItemCreated") := ListItemEvent,
      EventName("ListItemUpdated") := ListItemEvent,
      EventName("ListItemDeleted") := ListItemEvent,
      EventName("ListItemCompleted") := ListItemEvent,
      EventName("ListItemUncompleted") := ListItemEvent,
      EventName("DocCreated") := DocEvent,
      EventName("DocUpdated") := DocEvent,
      EventName("DocDeleted") := DocEvent,
      EventName("CalendarEventCreated") := CalendarEventEvent,
      EventName("CalendarEventUpdated") := CalendarEventEvent,
      EventName("CalendarEventDeleted") := CalendarEventEvent
    ]
  }

  /** Created and updated chat messages share one payload type. */
  lemma EventTableKeys()
    ensures GuildedEvents()[EventName("ChatMessageCreated")] == MessageEvent
    ensures GuildedEvents()[EventName("ChatMessageUpdated")] == MessageEvent
  {
  }

  /** The roles key is spelled with a lower-case `t`, so the capitalised spelling is absent. */
  lemma RolesEventKey()
    ensures EventName("teamRolesUpdated") in GuildedEvents()
    ensures GuildedEvents()[EventName("teamRolesUpdated")] == RolesUpdatedEvent
    ensures EventName("TeamRolesUpdated") !in GuildedEvents()
  {
  }
}
