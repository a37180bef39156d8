/** The per-player record the coordinator keeps while a player is online. */
module Players {
  import opened Wrappers
  import opened Uuids

  /** The value of a record's fields at one moment. */
  datatype PlayerState = PlayerState(
    uuid: Uuid,
    username: Option<string>,
    lastServer: Option<string>,
    desiredServer: Option<string>)

  /**
   * A player's record. The identifier and the name are set once by a
   * constructor; the last and the desired server are overwritten from
   * outside, and records are shared with tasks that read them later.
   */
  class VelobbityPlayer {
    const uuid: Uuid
    const username: Option<string>
    var lastServer: Option<string>
    var desiredServer: Option<string>

    /** The one-argument constructor: the name and both servers are left unset. */
    constructor (uuid: Uuid)
      ensures this.uuid == uuid && username == None
      ensures lastServer == None && desiredServer == None
    {
      this.uuid := uuid;
      username := None;
      lastServer := None;
      desiredServer := None;
    }

    /** The two-argument constructor: both servers are left unset. */
    constructor WithName(uuid: Uuid, username: string)
      ensures this.uuid == uuid && this.username == Some(username)
      ensures lastServer == None && desiredServer == None
    {
      this.uuid := uuid;
      this.username := Some(username);
      lastServer := None;
      desiredServer := None;
    }

    function GetUuid(): (r: Uuid)
      ensures r == uuid
    {
      uuid
    }

    function GetUsername(): (r: Option<string>)
      ensures r == username
    {
      username
    }

    function State(): (s: PlayerState)
      reads this
    {
      PlayerState(uuid, username, lastServer, desiredServer)
    }
  }
}
