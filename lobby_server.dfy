/** The configured description of one lobby server. */
module LobbyServers {

  /** Java's 32-bit `int`. */
  newtype int32 = x: int | -0x8000_0000 <= x < 0x8000_0000

  /**
   * A lobby server: its name on the proxy and a player cap. Nothing
   * changes either field after construction.
   */
  datatype LobbyServer = LobbyServer(serverName: string, maxPlayers: int32)

  /** The no-argument constructor: a server called "lobby" for 100 players. */
  function DefaultLobbyServer(): (r: LobbyServer)
    ensures r.serverName == "lobby" && r.maxPlayers == 100
  {
    LobbyServer("lobby", 100)
  }

  /** The two-argument constructor: exactly the given name and cap. */
  function NewLobbyServer(serverName: string, maxPlayers: int32): (r: LobbyServer)
    ensures r.serverName == serverName && r.maxPlayers == maxPlayers
  {
    LobbyServer(serverName, maxPlayers)
  }
}
