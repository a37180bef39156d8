/**
 * The status-channel subscriber: a message "<player-id> <status>" whose
 * status is exactly "safe" makes the coordinator run lobby placement for
 * that player again. A message that does not parse is an error.
 */
module StatusSubscriber {
  import opened Wrappers
  import opened Uuids
  import opened JavaText
  import opened Coordinator

  datatype StatusMessage = StatusMessage(playerId: Uuid, status: string)

  /** Why a message was not understood, in the order the handler finds out. */
  datatype MessageError =
    | /** Splitting gave no field at all (the message is only spaces): `parts[0]` fails. */
      NoIdToken
    | /** The first field is not an identifier: `UUID.fromString` fails. */
      BadId(token: string)
    | /** There is no second field: `parts[1]` fails. */
      NoStatusToken

  /** What a message makes the handler do. */
  datatype Dispatch = Redirected(playerId: Uuid) | Ignored(playerId: Uuid, status: string)

  /** The two leading fields of the message, split at single spaces; later fields are not read. */
  function ParseMessage(message: string): (r: Result<StatusMessage, MessageError>)
    ensures r.Ok? ==> ' ' !in r.value.status
  {
    var parts := Split(message);
    if |parts| == 0 then Err(NoIdToken)
    else
      match ParseUuid(parts[0])
      case None => Err(BadId(parts[0]))
      case Some(id) => if |parts| < 2 then Err(NoStatusToken) else Ok(StatusMessage(id, parts[1]))
  }

  /** A parsed message redirects exactly when its status is "safe", compared case-sensitively. */
  function Decide(message: string): (r: Result<Dispatch, MessageError>)
    ensures r.Err? <==> ParseMessage(message).Err?
  {
    match ParseMessage(message)
    case Err(e) => Err(e)
    case Ok(m) => if m.status == "safe" then Ok(Redirected(m.playerId)) else Ok(Ignored(m.playerId, m.status))
  }

  lemma DecideRedirectsOnlyOnSafe(message: string, id: Uuid)
    ensures Decide(message) == Ok(Redirected(id)) <==> ParseMessage(message) == Ok(StatusMessage(id, "safe"))
  {
  }

  /**
   * An identifier and a non-empty status, joined by a space and followed by
   * any number of further fields, parse to that identifier and status.
   */
  lemma ParseWellFormed(id: Uuid, status: string, more: seq<string>)
    requires status != "" && ' ' !in status
    requires forall i :: 0 <= i < |more| ==> ' ' !in more[i]
    ensures ParseMessage(Join([FormatUuid(id), status] + more)) == Ok(StatusMessage(id, status))
  {
    SplitLeadingFields(FormatUuid(id), status, more);
    FormatThenParse(id);
    ParseOfFields(Join([FormatUuid(id), status] + more), id, status);
  }

  /** The message whose first two fields are an identifier and a status. */
  lemma ParseOfFields(message: string, id: Uuid, status: string)
    requires |Split(message)| >= 2
    requires ParseUuid(Split(message)[0]) == Some(id) && Split(message)[1] == status
    ensures ParseMessage(message) == Ok(StatusMessage(id, status))
  {
  }

  /** A first field that is not an identifier fails before the status is looked at. */
  lemma ParseRejectsBadId(token: string, rest: string)
    requires token != "" && ' ' !in token
    requires ParseUuid(token).None?
    ensures ParseMessage(token + " " + rest) == Err(BadId(token))
  {
    var message := token + " " + rest;
    assert message == token + (" " + rest);
    assert message[|token|] == ' ';
    FieldsOfPrefix(token, " " + rest);
    assert (" " + rest)[1..] == rest;
    assert Fields(" " + rest)[0] == "";
    assert token + "" == token;
    var parts := Fields(message);
    assert parts[0] == token;
    assert |Split(message)| >= 1;
  }

  /** A message of spaces only has no first field, so `parts[0]` fails. */
  lemma SpacesOnlyIsNoIdToken(message: string)
    requires message != [] && forall i :: 0 <= i < |message| ==> message[i] == ' '
    ensures ParseMessage(message) == Err(NoIdToken)
  {
    SplitOfSpaces(message);
  }

  /** A message with no space is one field, so it is an error either way. */
  lemma NoSpaceIsError(message: string)
    requires ' ' !in message
    ensures ParseMessage(message) == if ParseUuid(message).Some? then Err(NoStatusToken) else Err(BadId(message))
  {
  }

  /** `sendPlayerUpdateStatus`: the message it publishes, joined with a colon. */
  function PublishedStatusMessage(id: Uuid, status: string): (m: string)
    ensures |m| == 37 + |status| && m[..36] == FormatUuid(id) && m[36] == ':' && m[37..] == status
    ensures ' ' !in m[..37]
  {
    FormatUuid(id) + ":" + status
  }

  /**
   * Nothing the publisher sends is understood by the subscriber: the first
   * field is the identifier with a colon and more after it, which never
   * parses as an identifier.
   */
  lemma PublishedMessageRejected(id: Uuid, status: string)
    ensures ParseMessage(PublishedStatusMessage(id, status)).Err?
    ensures ParseMessage(PublishedStatusMessage(id, status)).error.BadId?
  {
    var head := FormatUuid(id) + ":";
    var message := PublishedStatusMessage(id, status);
    assert message == head + status;
    if ' ' in message {
      FieldsOfPrefix(head, status);
      var parts := Fields(message);
      assert |parts[0]| >= 37;
      var tokens := DropTrailingEmpty(parts);
      assert |tokens| >= 1;
      assert tokens[0] == parts[0];
    }
  }

  /** The publisher's message with the subscriber's delimiter, a single space. */
  function SpaceDelimitedStatusMessage(id: Uuid, status: string): (m: string)
  {
    FormatUuid(id) + " " + status
  }

  /** With a space as the delimiter every non-empty, space-free status makes the round trip. */
  lemma SpaceDelimitedRoundTrip(id: Uuid, status: string)
    requires status != "" && ' ' !in status
    ensures ParseMessage(SpaceDelimitedStatusMessage(id, status)) == Ok(StatusMessage(id, status))
  {
    ParseWellFormed(id, status, []);
    assert [FormatUuid(id), status] + [] == [FormatUuid(id), status];
  }

  /**
   * `onMessage`: parse the message, and on "safe" call `redirect` once for
   * the player. Any other status and any error leave the coordinator as it
   * was; an error is what escapes the handler as an exception.
   */
  method OnMessage(velobbity: Velobbbity, message: string, current: Option<string>, servers: seq<QueueServer>)
    returns (outcome: Result<Dispatch, MessageError>)
    requires velobbity.Valid()
    modifies velobbity, velobbity.players.Values
    ensures velobbity.Valid()
    ensures outcome == Decide(message)
    ensures outcome.Ok? && outcome.value.Redirected? ==>
              var id := outcome.value.playerId;
              id in velobbity.players && velobbity.players == old(velobbity.players)[id := velobbity.players[id]]
              && velobbity.lobbies == old(velobbity.lobbies)
              && (id in old(velobbity.players) ==> velobbity.players[id] == old(velobbity.players[id]))
              && (id !in old(velobbity.players) ==> fresh(velobbity.players[id]))
              && (forall p :: p in old(velobbity.players.Values) && p != velobbity.players[id] ==> unchanged(p))
              && (Select(servers, velobbity.lobbies).Some? ==>
                    velobbity.log == old(velobbity.log) + [Connect(id, Select(servers, velobbity.lobbies).value.name)]
                    && velobbity.pending == old(velobbity.pending)
                    && velobbity.players[id].State() == old(velobbity.StateOrNew(id, "")).(lastServer := current))
              && (Select(servers, velobbity.lobbies).None? ==>
                    velobbity.log == old(velobbity.log)
                    && velobbity.players[id].State() == old(velobbity.StateOrNew(id, ""))
                    && velobbity.pending == old(velobbity.pending) + [RedirectRetryTask(TwoSeconds, velobbity.players[id], old(velobbity.StateOrNew(id, "")).desiredServer)])
    ensures !(outcome.Ok? && outcome.value.Redirected?) ==>
              unchanged(velobbity) && forall p :: p in old(velobbity.players.Values) ==> unchanged(p)
  {
    outcome := Decide(message);
    match ParseMessage(message)
    case Err(_) =>
    case Ok(m) =>
      if m.status == "safe" {
        velobbity.Redirect(m.playerId, current, servers);
      }
  }
}
