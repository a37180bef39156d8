# Velobbity lobby detour, modelled in Dafny

Velobbity is a plugin for the Velocity proxy. It works alongside the AjQueue queue plugin.

A player asks the queue for a backend server. If that player is not currently on a configured lobby server, the plugin cancels the request. It sends the player to the first lobby the queue reports as online and joinable, and remembers the server they asked for. Once the player arrives on the lobby, a delayed task puts them back in the queue for that server.

A Redis subscriber does the same placement again when a "<player-id> safe" status message arrives.

The project models the following parts of the plugin:

- **The player registry**: a map from player identifier to a mutable `VelobbityPlayer` record.
- **The configured lobbies**: a map from name to `LobbyServer`.
- **The event handlers**: login, server connect, disconnect and the queue's PreQueue event.
- **Lobby placement**: first-fit selection, plus the two-second retry.
- **The subscriber's message handling**: parsing the message with Java's `String.split(" ")` and `UUID.fromString`, then dispatching on the status.

Three things are not modelled as real systems:

- **The queue plugin and the proxy**: the live server list and the player's current server are inputs. What the plugin asks of them (connect, add to queue, action-bar text) is appended to an effect log.
- **The scheduler**: a list of pending tasks. Each task holds a reference to the player record. The two advance tasks (after a server connect and in the PreQueue listener) read the record's desired server when they fire. The two-second placement retry instead carries the desired server captured when it was scheduled.
- **Redis**: the status channel's presence is a boolean input.

Modules: `Wrappers` (Option, Result), `JavaText` (split/join), `Uuids` (identifier text form), `LobbyServers`, `Players`, `Coordinator` (the plugin class) and `StatusSubscriber`.

## Model

| member | source | states |
|---|---|---|
| LobbyServers.DefaultLobbyServer | src/main/java/io/github/adainish/velobbity/data/LobbyServer.java:10-14 | the no-argument descriptor is named "lobby" with a cap of 100 |
| LobbyServers.NewLobbyServer | src/main/java/io/github/adainish/velobbity/data/LobbyServer.java:16-20 | the two-argument descriptor carries exactly the given name and cap |
| Players.VelobbityPlayer.constructor | src/main/java/io/github/adainish/velobbity/data/VelobbityPlayer.java:12-15 | stores the identifier; name, last server and desired server are unset |
| Players.VelobbityPlayer.WithName | src/main/java/io/github/adainish/velobbity/data/VelobbityPlayer.java:17-21 | stores identifier and name; last and desired server are unset |
| Players.VelobbityPlayer.GetUuid | src/main/java/io/github/adainish/velobbity/data/VelobbityPlayer.java:23-26 | returns the stored identifier |
| Players.VelobbityPlayer.GetUsername | src/main/java/io/github/adainish/velobbity/data/VelobbityPlayer.java:28-31 | returns the stored name, unset included |
| Coordinator.Velobbbity.constructor | src/main/java/io/github/adainish/velobbity/Velobbbity.java:53-54 | the plugin starts with an empty registry and an empty lobby map, which keeps the one-record-per-identifier invariant, and nothing is pending or requested |
| Coordinator.DefaultLobbyList | src/main/java/io/github/adainish/velobbity/Velobbbity.java:122-126 | the list built is exactly lobby1, lobby2, lobby3 in that order, each with a cap of 100 |
| Coordinator.KeyedByNameContents | src/main/java/io/github/adainish/velobbity/Velobbbity.java:124-128 | putting servers under their names makes each one reachable by its name; every value sits under its own name; a later duplicate wins |
| Coordinator.DefaultLobbySet | src/main/java/io/github/adainish/velobbity/Velobbbity.java:121-128 | the default set is exactly lobby1, lobby2 and lobby3, each keyed by its own name with a cap of 100 |
| Coordinator.Velobbbity.SetupDefaultLobbies | src/main/java/io/github/adainish/velobbity/Velobbbity.java:121-128 | the loop puts the default set into the lobby map, over what was there |
| Coordinator.Velobbbity.LoadLobbies | src/main/java/io/github/adainish/velobbity/Velobbbity.java:136-140 | the configured servers are put under their names in list order |
| Coordinator.FirstFit | src/main/java/io/github/adainish/velobbity/Velobbbity.java:334-347 | the position found is eligible (configured, online, joinable) and every earlier one is not; none found means none at all is eligible |
| Coordinator.Select | src/main/java/io/github/adainish/velobbity/Velobbbity.java:331-349 | a selected server is in the reported list, a configured lobby, online and joinable; nothing is selected iff no server is eligible |
| Coordinator.SelectIsFirstFit | src/main/java/io/github/adainish/velobbity/Velobbbity.java:334-344 | an eligible server preceded only by ineligible ones is the one selected |
| Coordinator.SelectIgnoresCaps | src/main/java/io/github/adainish/velobbity/Velobbbity.java:336-338 | selection depends only on the configured names, never on player caps |
| Coordinator.PlacementNotice | src/main/java/io/github/adainish/velobbity/Velobbbity.java:273-279 | the player always gets one action-bar text first: the redirect text when a lobby was found, else the no-lobby text; a connect to the found lobby follows iff one was found |
| Coordinator.Velobbbity.GetOrCreate | src/main/java/io/github/adainish/velobbity/Velobbbity.java:264-268 | an existing record is returned unchanged; otherwise a fresh record with the given name is stored; in both cases only that identifier's entry changes |
| Coordinator.Velobbbity.OnLogin | src/main/java/io/github/adainish/velobbity/Velobbbity.java:219-228 | an identifier already present leaves the map unchanged; an absent one gets exactly one fresh named record with both servers unset |
| Coordinator.Velobbbity.ServerJoin | src/main/java/io/github/adainish/velobbity/Velobbbity.java:230-251 | exactly one record for the identifier, with the arrived server as last server and name and desired server kept; one five-second advance task is scheduled iff the arrived server is a lobby and the desired one is not |
| Coordinator.Velobbbity.ProxyLogout | src/main/java/io/github/adainish/velobbity/Velobbbity.java:253-258 | only that identifier's entry is removed; pending tasks are kept |
| Coordinator.Velobbbity.GetAndSendAvailableLobbyServer | src/main/java/io/github/adainish/velobbity/Velobbbity.java:331-349 | returns the first-fit server; on a hit the record gets the current and the desired server and is stored under its identifier; on a miss no record and no entry changes |
| Coordinator.Velobbbity.RedirectPlayerToLobbyServer | src/main/java/io/github/adainish/velobbity/Velobbbity.java:312-329 | success iff a lobby is selected; success connects the player; failure schedules a two-second retry with the same arguments and nothing else |
| Coordinator.Velobbbity.Redirect | src/main/java/io/github/adainish/velobbity/Velobbbity.java:301-310 | get-or-create with an empty name, then placement with the record's own desired server; connect on a hit, retry otherwise |
| Coordinator.Velobbbity.SendToLobby | src/main/java/io/github/adainish/velobbity/Velobbbity.java:269-279 | a player off a lobby is told once and connected iff a lobby is selected; no task is scheduled |
| Coordinator.Velobbbity.DelayUntilSafe | src/main/java/io/github/adainish/velobbity/Velobbbity.java:280-297 | with a status channel nothing happens; without one, one two-second advance task is scheduled |
| Coordinator.Velobbbity.OnPreQueue | src/main/java/io/github/adainish/velobbity/Velobbbity.java:262-298 | the request is cancelled iff the last server is not a lobby (unset included); then the notice and connect follow the selection; otherwise nothing changes except an optional two-second task |
| Coordinator.Velobbbity.RunTask | src/main/java/io/github/adainish/velobbity/Velobbbity.java:244-326 | the scheduled task bodies at lines 245-247, 291-293 and 321-326: an advance task asks the queue for the record's desired server as it is when the task fires; a retry repeats placement and may reschedule itself |
| Coordinator.Detour | src/main/java/io/github/adainish/velobbity/Velobbbity.java:236-249 | a player off a lobby who asks for a non-lobby target is shown the redirect text and connected to the lobby selected from the configured set, which stays unchanged; the record ends with that lobby as last server and the target as desired server, and when the advance fires the queue is asked for that same target; every task scheduled on the way has fired |
| JavaText.Fields | src/main/java/io/github/adainish/velobbity/PlayerStatusSubscriber.java:13 | cutting at every space gives at least one field and no field contains a space |
| JavaText.DropTrailingEmpty | src/main/java/io/github/adainish/velobbity/PlayerStatusSubscriber.java:13 | only trailing empty fields are removed and the result ends in a non-empty field |
| JavaText.Split | src/main/java/io/github/adainish/velobbity/PlayerStatusSubscriber.java:13 | no token contains a space; a string with no space is its own single token |
| JavaText.JoinFields | src/main/java/io/github/adainish/velobbity/PlayerStatusSubscriber.java:13 | joining a string's fields with spaces gives the string back |
| JavaText.SplitOfJoinWhole | src/main/java/io/github/adainish/velobbity/PlayerStatusSubscriber.java:13 | splitting two or more space-free parts joined by spaces gives exactly the parts with the trailing empty ones dropped |
| JavaText.SplitOfJoin | src/main/java/io/github/adainish/velobbity/PlayerStatusSubscriber.java:13 | so every part up to a non-empty one comes back in place |
| JavaText.FieldsOfSpaces | src/main/java/io/github/adainish/velobbity/PlayerStatusSubscriber.java:13 | a string of spaces only is cut into empty fields alone |
| JavaText.SplitOfSpaces | src/main/java/io/github/adainish/velobbity/PlayerStatusSubscriber.java:13 | a non-empty string of spaces only splits into no token at all |
| JavaText.SplitLeadingFields | src/main/java/io/github/adainish/velobbity/PlayerStatusSubscriber.java:13-15 | the first two tokens of a joined message are its first two parts when the second is non-empty |
| Uuids.HexValue | src/main/java/io/github/adainish/velobbity/PlayerStatusSubscriber.java:14 | a character has a value iff it is a hexadecimal digit in either case |
| Uuids.ParseHex | src/main/java/io/github/adainish/velobbity/PlayerStatusSubscriber.java:14 | a digit string parses iff every character is a digit, each to its own value |
| Uuids.FormatUuid | src/main/java/io/github/adainish/velobbity/Velobbbity.java:179 | the text form is 36 characters with dashes at 8, 13, 18 and 23 and lower-case digits elsewhere, with no space and no colon |
| Uuids.ParseUuid | src/main/java/io/github/adainish/velobbity/PlayerStatusSubscriber.java:14 | a string is accepted iff it has its dashes in place and a hexadecimal digit of either case everywhere else; each digit gives the matching nibble |
| Uuids.FormatThenParse | src/main/java/io/github/adainish/velobbity/PlayerStatusSubscriber.java:14 | parsing the text form of an identifier gives that identifier |
| Uuids.ParseThenFormat | src/main/java/io/github/adainish/velobbity/PlayerStatusSubscriber.java:14 | an accepted string is the text form of its identifier up to letter case |
| StatusSubscriber.ParseMessage | src/main/java/io/github/adainish/velobbity/PlayerStatusSubscriber.java:13-15 | a parsed status is one token, containing no space |
| StatusSubscriber.ParseOfFields | src/main/java/io/github/adainish/velobbity/PlayerStatusSubscriber.java:13-15 | token 0 parsed as the identifier and token 1 as the status give the parsed message, whatever follows |
| StatusSubscriber.ParseWellFormed | src/main/java/io/github/adainish/velobbity/PlayerStatusSubscriber.java:13-15 | identifier, status and any further fields joined by spaces parse to that identifier and status |
| StatusSubscriber.ParseRejectsBadId | src/main/java/io/github/adainish/velobbity/PlayerStatusSubscriber.java:14 | a first token that is not an identifier fails as a bad identifier, before the status is read |
| StatusSubscriber.SpacesOnlyIsNoIdToken | src/main/java/io/github/adainish/velobbity/PlayerStatusSubscriber.java:13-14 | a message of spaces only fails at the first field, before any identifier is parsed |
| StatusSubscriber.NoSpaceIsError | src/main/java/io/github/adainish/velobbity/PlayerStatusSubscriber.java:13-15 | a message without a space is always an error: a missing status if it is an identifier, a bad identifier otherwise |
| StatusSubscriber.Decide | src/main/java/io/github/adainish/velobbity/PlayerStatusSubscriber.java:18-23 | the outcome is an error iff the message does not parse |
| StatusSubscriber.DecideRedirectsOnlyOnSafe | src/main/java/io/github/adainish/velobbity/PlayerStatusSubscriber.java:18-23 | a redirect is decided iff the parsed status is exactly "safe" |
| StatusSubscriber.PublishedStatusMessage | src/main/java/io/github/adainish/velobbity/Velobbbity.java:179 | the published payload is the 36-character identifier, a colon, then the status; no space occurs before the status |
| StatusSubscriber.PublishedMessageRejected | src/main/java/io/github/adainish/velobbity/Velobbbity.java:177-181 | every colon-joined message the publisher sends fails as a bad identifier |
| StatusSubscriber.SpaceDelimitedRoundTrip | src/main/java/io/github/adainish/velobbity/PlayerStatusSubscriber.java:13-15 | a space-joined identifier and status round-trip through the parser |
| StatusSubscriber.OnMessage | src/main/java/io/github/adainish/velobbity/PlayerStatusSubscriber.java:10-24 | the outcome is the decision; a "safe" message gets or makes (freshly, named "") that player's record, gives it the current server on a hit and leaves it as it was on a miss, connects or schedules a retry, and leaves every other record unchanged; anything else, errors included, changes no state |

## Left out

- Redis: `sendPlayerUpdateStatus`, `receivePlayerUpdateStatus`, `buildPoolConfig` and `subscribeToPlayerStatusUpdates` are network I/O on a thread of their own. Whether a status channel exists is an input to the PreQueue listener. The stored status string is not modelled: both of its branches end the listener with no effect.
- Configuration files: file and directory handling in `setupConfig`, the Redis settings, `AbstractJsonConfiguration` and the Gson helpers are file I/O and a foreign library. Only the default lobby list is modelled. A configuration that already exists is modelled as a list of already-decoded servers passed to `LoadLobbies`.
- The queue plugin and Velocity: `getServers`, `isOnline`, `isJoinable`, `getServerName`, `connect`, `addToQueue` and the scheduler are foreign calls. Server lists and the current server are inputs; requests are entries in the effect log.
- Adapted players: `getPlatformMethods().getPlayer(uuid)` returning null for a player who is not online is not modelled. The adapted player is the record's identifier.
- RunTask: the scheduler's timing is not modelled. Any pending task may fire next, and the delay is only a tag on the task.
- Concurrency: the shared registry is touched from event, timer and subscriber threads. The model is sequential and claims no thread safety.
- Styling and logging: action-bar text is kept with its words only, without colours. Log lines are left out.
- Uuids.ParseUuid: accepts only the canonical 36-character form of ASCII hexadecimal digits. The JDK's other readings are not modelled: dash-separated groups of other lengths (shorter ones, and longer ones that it masks), and a group parsed by `Long.parseLong`, which also takes a leading '+' sign and non-ASCII digits. So a message such as "+0000000-0000-0000-0000-000000000000 safe" may redirect in the source but is a bad identifier here.
- StatusSubscriber.OnMessage: an error outcome stands for the exception that escapes `onMessage`. What the Redis library then does with the subscription is not modelled.
- Players.VelobbityPlayer: `uuid` and `username` are public and mutable in the source. Nothing in the modelled code reassigns them, so they are constants here.

## Findings

| source | as written | input that shows it | evidently intended | confidence | as-written member | corrected member |
|---|---|---|---|---|---|---|
| src/main/java/io/github/adainish/velobbity/Velobbbity.java:179 | the publisher joins identifier and status with ":", while the subscriber at PlayerStatusSubscriber.java:13 splits on " " | the message for any player and status "safe", e.g. "00000000-0000-0000-0000-000000000000:safe": its first token is not an identifier, so no redirect ever happens | one delimiter on both sides, so a published "safe" reaches `redirect` | not executed | StatusSubscriber.PublishedMessageRejected | StatusSubscriber.SpaceDelimitedRoundTrip |
