/**
 * Interface families, adapter shims and the version tokens that select them.
 *
 * Every `GetISteam*` getter of dll/steam_client.cpp is an `strcmp` chain over
 * version tokens followed by a branch for the current version macro and a
 * final `else`; both of those return the newest shim.  `GetISteamGenericInterface`
 * first picks a family by an `strstr` prefix chain.  `create_client_interface`
 * of dll/dll.cpp is one more such table.  The pointer casts of the source are
 * replaced by `Adapter` tags.
 */
module InterfaceVersions {

  datatype Option<T> = None | Some(value: T)

  /** `strstr(v, p) == v`: the token `v` begins with `p`. */
  predicate StartsWith(v: string, p: string)
  {
    p <= v
  }

  /** The interface families a version token can select. */
  datatype Family =
    | Client | User | GameServer | Friends | Utils | MatchMaking | MatchMakingServers
    | NetworkingSocketsSerialized | NetworkingSockets | NetworkingMessages | NetworkingUtils
    | GameCoordinator | TV | UserStats | GameServerStats | Apps | Networking | RemoteStorage
    | Screenshots | HTTP | UnifiedMessages | Controller | UGC | AppList | Music | MusicRemote
    | HTMLSurface | Inventory | Video | ParentalSettings | MasterServerUpdater | ContentServer
    | GameSearch | Input | Parties | RemotePlay | AppTicket

  /** The vtable layout handed out: one numbered interface version, or the newest one. */
  datatype Shim = Numbered(n: nat) | Latest

  /** Which object serves the interface: the one both roles share, or the client's or the game server's copy. */
  datatype Instance = Shared | ClientCopy | ServerCopy

  /** What a getter returns instead of a cast pointer. */
  datatype Adapter = Adapter(family: Family, shim: Shim, instance: Instance)

  /** The tokens a getter compares with `strcmp`, and the shim each one is cast to. */
  function Versions(f: Family): (r: map<string, Shim>)
    ensures forall v :: v in r ==> r[v].Numbered?
  {
    match f
    case Client => map[
      "SteamClient007" := Numbered(7), "SteamClient008" := Numbered(8),
      "SteamClient009" := Numbered(9), "SteamClient010" := Numbered(10),
      "SteamClient011" := Numbered(11), "SteamClient012" := Numbered(12),
      "SteamClient013" := Numbered(13), "SteamClient014" := Numbered(14),
      "SteamClient015" := Numbered(15), "SteamClient016" := Numbered(16),
      "SteamClient017" := Numbered(17), "SteamClient018" := Numbered(18),
      "SteamClient019" := Numbered(19), "SteamClient020" := Numbered(20)]
    case User => map[
      "SteamUser009" := Numbered(9), "SteamUser010" := Numbered(10), "SteamUser011" := Numbered(11),
      "SteamUser012" := Numbered(12), "SteamUser013" := Numbered(13), "SteamUser014" := Numbered(14),
      "SteamUser015" := Numbered(15), "SteamUser016" := Numbered(16), "SteamUser017" := Numbered(17),
      "SteamUser018" := Numbered(18), "SteamUser019" := Numbered(19), "SteamUser020" := Numbered(20),
      "SteamUser021" := Numbered(21), "SteamUser022" := Numbered(22)]
    case GameServer => map[
      "SteamGameServer004" := Numbered(4), "SteamGameServer005" := Numbered(5),
      "SteamGameServer006" := Numbered(8), "SteamGameServer007" := Numbered(8),
      "SteamGameServer008" := Numbered(8), "SteamGameServer009" := Numbered(9),
      "SteamGameServer010" := Numbered(10), "SteamGameServer011" := Numbered(11),
      "SteamGameServer012" := Numbered(12), "SteamGameServer013" := Numbered(13),
      "SteamGameServer014" := Numbered(14)]
    case Friends => map[
      "SteamFriends003" := Numbered(3), "SteamFriends004" := Numbered(4),
      "SteamFriends005" := Numbered(5), "SteamFriends006" := Numbered(6),
      "SteamFriends007" := Numbered(7), "SteamFriends008" := Numbered(8),
      "SteamFriends009" := Numbered(9), "SteamFriends010" := Numbered(10),
      "SteamFriends011" := Numbered(11), "SteamFriends012" := Numbered(12),
      "SteamFriends013" := Numbered(13), "SteamFriends014" := Numbered(14),
      "SteamFriends015" := Numbered(15), "SteamFriends016" := Numbered(16)]
    case Utils => map[
      "SteamUtils002" := Numbered(2), "SteamUtils003" := Numbered(3), "SteamUtils004" := Numbered(4),
      "SteamUtils005" := Numbered(5), "SteamUtils006" := Numbered(6), "SteamUtils007" := Numbered(7),
      "SteamUtils008" := Numbered(8), "SteamUtils009" := Numbered(9)]
    case MatchMaking => map[
      "SteamMatchMaking001" := Numbered(2), "SteamMatchMaking002" := Numbered(2),
      "SteamMatchMaking003" := Numbered(3), "SteamMatchMaking004" := Numbered(4),
      "SteamMatchMaking005" := Numbered(5), "SteamMatchMaking006" := Numbered(6),
      "SteamMatchMaking007" := Numbered(7), "SteamMatchMaking008" := Numbered(8)]
    case MatchMakingServers => map[
      "SteamMatchMakingServers001" := Numbered(1)]
    case NetworkingSocketsSerialized => map[
      "SteamNetworkingSocketsSerialized002" := Numbered(2),
      "SteamNetworkingSocketsSerialized003" := Numbered(3),
      "SteamNetworkingSocketsSerialized004" := Numbered(4),
      "SteamNetworkingSocketsSerialized005" := Numbered(5)]
    case NetworkingSockets => map[
      "SteamNetworkingSockets001" := Numbered(1), "SteamNetworkingSockets002" := Numbered(2),
      "SteamNetworkingSockets003" := Numbered(3), "SteamNetworkingSockets004" := Numbered(4),
      "SteamNetworkingSockets006" := Numbered(6), "SteamNetworkingSockets008" := Numbered(8),
      "SteamNetworkingSockets009" := Numbered(9)]
    case NetworkingUtils => map[
      "SteamNetworkingUtils001" := Numbered(1), "SteamNetworkingUtils002" := Numbered(2),
      "SteamNetworkingUtils003" := Numbered(3)]
    case UserStats => map[
      "STEAMUSERSTATS_INTERFACE_VERSION001" := Numbered(3),
      "STEAMUSERSTATS_INTERFACE_VERSION002" := Numbered(3),
      "STEAMUSERSTATS_INTERFACE_VERSION003" := Numbered(3),
      "STEAMUSERSTATS_INTERFACE_VERSION004" := Numbered(4),
      "STEAMUSERSTATS_INTERFACE_VERSION005" := Numbered(5),
      "STEAMUSERSTATS_INTERFACE_VERSION006" := Numbered(6),
      "STEAMUSERSTATS_INTERFACE_VERSION007" := Numbered(7),
      "STEAMUSERSTATS_INTERFACE_VERSION008" := Numbered(8),
      "STEAMUSERSTATS_INTERFACE_VERSION009" := Numbered(9),
      "STEAMUSERSTATS_INTERFACE_VERSION010" := Numbered(10),
      "STEAMUSERSTATS_INTERFACE_VERSION011" := Numbered(11)]
    case Apps => map[
      "STEAMAPPS_INTERFACE_VERSION001" := Numbered(1),
      "STEAMAPPS_INTERFACE_VERSION002" := Numbered(2),
      "STEAMAPPS_INTERFACE_VERSION003" := Numbered(3),
      "STEAMAPPS_INTERFACE_VERSION004" := Numbered(4),
      "STEAMAPPS_INTERFACE_VERSION005" := Numbered(5),
      "STEAMAPPS_INTERFACE_VERSION006" := Numbered(6),
      "STEAMAPPS_INTERFACE_VERSION007" := Numbered(7)]
    case Networking => map[
      "SteamNetworking001" := Numbered(1), "SteamNetworking002" := Numbered(2),
      "SteamNetworking003" := Numbered(3), "SteamNetworking004" := Numbered(4),
      "SteamNetworking005" := Numbered(5)]
    case RemoteStorage => map[
      "STEAMREMOTESTORAGE_INTERFACE_VERSION001" := Numbered(1),
      "STEAMREMOTESTORAGE_INTERFACE_VERSION002" := Numbered(2),
      "STEAMREMOTESTORAGE_INTERFACE_VERSION003" := Numbered(3),
      "STEAMREMOTESTORAGE_INTERFACE_VERSION004" := Numbered(4),
      "STEAMREMOTESTORAGE_INTERFACE_VERSION005" := Numbered(5),
      "STEAMREMOTESTORAGE_INTERFACE_VERSION006" := Numbered(6),
      "STEAMREMOTESTORAGE_INTERFACE_VERSION007" := Numbered(7),
      "STEAMREMOTESTORAGE_INTERFACE_VERSION008" := Numbered(8),
      "STEAMREMOTESTORAGE_INTERFACE_VERSION009" := Numbered(9),
      "STEAMREMOTESTORAGE_INTERFACE_VERSION010" := Numbered(10),
      "STEAMREMOTESTORAGE_INTERFACE_VERSION011" := Numbered(11),
      "STEAMREMOTESTORAGE_INTERFACE_VERSION012" := Numbered(12),
      "STEAMREMOTESTORAGE_INTERFACE_VERSION013" := Numbered(13),
      "STEAMREMOTESTORAGE_INTERFACE_VERSION014" := Numbered(14)]
    case HTTP => map[
      "STEAMHTTP_INTERFACE_VERSION001" := Numbered(1),
      "STEAMHTTP_INTERFACE_VERSION002" := Numbered(2)]
    case Controller => map[
      "STEAMCONTROLLER_INTERFACE_VERSION" := Numbered(1),
      "STEAMCONTROLLER_INTERFACE_VERSION_002" := Numbered(3), "SteamController003" := Numbered(3),
      "SteamController004" := Numbered(4), "SteamController005" := Numbered(5),
      "SteamController006" := Numbered(6), "SteamController007" := Numbered(7)]
    case UGC => map[
      "STEAMUGC_INTERFACE_VERSION" := Numbered(1), "STEAMUGC_INTERFACE_VERSION001" := Numbered(1),
      "STEAMUGC_INTERFACE_VERSION002" := Numbered(2), "STEAMUGC_INTERFACE_VERSION003" := Numbered(3),
      "STEAMUGC_INTERFACE_VERSION004" := Numbered(4), "STEAMUGC_INTERFACE_VERSION005" := Numbered(5),
      "STEAMUGC_INTERFACE_VERSION006" := Numbered(6), "STEAMUGC_INTERFACE_VERSION007" := Numbered(7),
      "STEAMUGC_INTERFACE_VERSION008" := Numbered(8), "STEAMUGC_INTERFACE_VERSION009" := Numbered(9),
      "STEAMUGC_INTERFACE_VERSION010" := Numbered(10),
      "STEAMUGC_INTERFACE_VERSION011" := Numbered(12),
      "STEAMUGC_INTERFACE_VERSION012" := Numbered(12),
      "STEAMUGC_INTERFACE_VERSION013" := Numbered(13),
      "STEAMUGC_INTERFACE_VERSION014" := Numbered(14),
      "STEAMUGC_INTERFACE_VERSION015" := Numbered(15),
      "STEAMUGC_INTERFACE_VERSION016" := Numbered(16),
      "STEAMUGC_INTERFACE_VERSION017" := Numbered(17)]
    case HTMLSurface => map[
      "STEAMHTMLSURFACE_INTERFACE_VERSION_001" := Numbered(1),
      "STEAMHTMLSURFACE_INTERFACE_VERSION_002" := Numbered(2),
      "STEAMHTMLSURFACE_INTERFACE_VERSION_003" := Numbered(3),
      "STEAMHTMLSURFACE_INTERFACE_VERSION_004" := Numbered(4)]
    case Inventory => map[
      "STEAMINVENTORY_INTERFACE_V001" := Numbered(1), "STEAMINVENTORY_INTERFACE_V002" := Numbered(2)]
    case Input => map[
      "SteamInput001" := Numbered(1), "SteamInput002" := Numbered(2), "SteamInput005" := Numbered(5)]
    case RemotePlay => map[
      "STEAMREMOTEPLAY_INTERFACE_VERSION001" := Numbered(1)]
    case NetworkingMessages | GameCoordinator | TV | GameServerStats | Screenshots | UnifiedMessages
      | AppList | Music | MusicRemote | Video | ParentalSettings | MasterServerUpdater
      | ContentServer | GameSearch | Parties | AppTicket => map[]
  }

  /**
   * The shim of the current-version branch and of the final `else`.  Only the
   * NetworkingSocketsSerialized chain has no current-version branch and ends in
   * the 005 shim.
   */
  function Fallback(f: Family): (r: Shim)
    ensures r == Latest <==> f != NetworkingSocketsSerialized
  {
    if f == NetworkingSocketsSerialized then Numbered(5) else Latest
  }

  /** The shim the getter of family `f` returns for token `v`. */
  function ResolveShim(f: Family, v: string): (r: Shim)
    ensures r == Latest ==> v !in Versions(f)
    ensures v !in Versions(f) ==> r == Fallback(f)
  {
    if v in Versions(f) then Versions(f)[v] else Fallback(f)
  }

  /** Families whose getter serves the game server's copy when asked on a SERVER pipe. */
  predicate RoleSplit(f: Family)
  {
    f in {Utils, Apps, Networking, HTTP, UGC, Inventory,
          NetworkingSocketsSerialized, NetworkingSockets, NetworkingMessages, GameCoordinator}
  }

  /** GameServer 006 and 007 are cast to the 008 shim. */
  lemma GameServerAliases()
    ensures ResolveShim(GameServer, "SteamGameServer006") == Numbered(8)
    ensures ResolveShim(GameServer, "SteamGameServer007") == Numbered(8)
  {
  }

  /** MatchMaking 001 is cast to the 002 shim. */
  lemma MatchMakingAliases()
    ensures ResolveShim(MatchMaking, "SteamMatchMaking001") == Numbered(2)
  {
  }

  /** UserStats 001 and 002 are cast to the 003 shim. */
  lemma UserStatsAliases()
    ensures ResolveShim(UserStats, "STEAMUSERSTATS_INTERFACE_VERSION001") == Numbered(3)
    ensures ResolveShim(UserStats, "STEAMUSERSTATS_INTERFACE_VERSION002") == Numbered(3)
  {
  }

  /** UGC 011 is cast to the 012 shim, and the bare UGC token to the first one. */
  lemma UGCAliases()
    ensures ResolveShim(UGC, "STEAMUGC_INTERFACE_VERSION011") == Numbered(12)
    ensures ResolveShim(UGC, "STEAMUGC_INTERFACE_VERSION") == Numbered(1)
  {
  }

  /** An unknown token never yields null: it selects the family's fallback shim. */
  lemma UnknownTokensFallBack(f: Family, v: string)
    requires v !in Versions(f)
    ensures ResolveShim(f, v) == Fallback(f)
    ensures f != NetworkingSocketsSerialized ==> ResolveShim(f, v) == Latest
  {
  }

  /**
   * The branches of `GetISteamGameServer` that set `gameserver_has_ipv6_functions`:
   * 013, 014, the current version and any unknown token.
   */
  predicate RaisesGameServerIpv6(v: string)
    ensures RaisesGameServerIpv6(v) ==> ResolveShim(GameServer, v) in {Numbered(13), Numbered(14), Latest}
    ensures !RaisesGameServerIpv6(v) ==> ResolveShim(GameServer, v).Numbered? && ResolveShim(GameServer, v).n <= 12
  {
    v == "SteamGameServer013" || v == "SteamGameServer014" || v !in Versions(GameServer)
  }

  /** The latch is raised exactly by the tokens that do not name a shim older than 013. */
  lemma GameServerIpv6Tokens(v: string)
    ensures RaisesGameServerIpv6(v) <==> v !in {
      "SteamGameServer004", "SteamGameServer005", "SteamGameServer006", "SteamGameServer007",
      "SteamGameServer008", "SteamGameServer009", "SteamGameServer010", "SteamGameServer011",
      "SteamGameServer012"}
    ensures RaisesGameServerIpv6(v) <==> (ResolveShim(GameServer, v).Latest? || ResolveShim(GameServer, v).n >= 13)
  {
  }

  /**
   * `SteamGameServer_Init` and `SteamGameServer_InitSafe` treat the configured
   * game server version as old when it is 010 or starts with "SteamGameServer00".
   */
  predicate IsOldGameServer(v: string)
    ensures IsOldGameServer(v) ==> StartsWith(v, "SteamGameServer0")
  {
    v == "SteamGameServer010" || StartsWith(v, "SteamGameServer00")
  }

  /** Among the known tokens, the old ones are exactly those whose shim is 010 or older. */
  lemma OldGameServerTokens(v: string)
    requires v in Versions(GameServer)
    ensures IsOldGameServer(v) <==> ResolveShim(GameServer, v).n <= 10
  {
    if StartsWith(v, "SteamGameServer00") {
      assert v[16] == '0';
    }
  }

  /**
   * The table of `create_client_interface`: null unless the token starts with
   * "SteamClient"; a listed token gets its own shim, anything else the newest.
   */
  function ClientShim(v: string): (r: Option<Shim>)
    ensures r.Some? <==> StartsWith(v, "SteamClient")
    ensures r.Some? && v !in Versions(Client) ==> r.value == Latest
  {
    if StartsWith(v, "SteamClient") then Some(ResolveShim(Client, v)) else None
  }

  /** The branches of `create_client_interface` that set `steamclient_has_ipv6_functions_flag`. */
  predicate RaisesClientIpv6(v: string)
    ensures RaisesClientIpv6(v) ==> ResolveShim(Client, v) == Latest
  {
    StartsWith(v, "SteamClient") && v !in Versions(Client)
  }

  /** Exactly the tokens resolved to the newest client shim raise the client latch. */
  lemma ClientIpv6Tokens(v: string)
    ensures RaisesClientIpv6(v) <==> ClientShim(v) == Some(Latest)
  {
  }

  /** Every prefix `GetISteamGenericInterface` tests; the order of the tests is that of `GenericFamily`. */
  const GenericPrefixes: set<string> := {
    "SteamNetworkingSocketsSerialized", "SteamNetworkingSockets", "SteamNetworkingMessages",
    "SteamNetworkingUtils", "SteamNetworking", "SteamGameCoordinator", "STEAMTV_INTERFACE_V",
    "STEAMREMOTESTORAGE_INTERFACE_VERSION", "SteamGameServerStats", "SteamGameServer",
    "SteamMatchMakingServers", "SteamMatchMaking", "SteamFriends", "SteamController",
    "STEAMCONTROLLER_INTERFACE_VERSION", "STEAMUGC_INTERFACE_VERSION",
    "STEAMINVENTORY_INTERFACE", "STEAMUSERSTATS_INTERFACE_VERSION", "SteamUser", "SteamUtils",
    "STEAMAPPS_INTERFACE_VERSION", "STEAMSCREENSHOTS_INTERFACE_VERSION",
    "STEAMHTTP_INTERFACE_VERSION", "STEAMUNIFIEDMESSAGES_INTERFACE_VERSION",
    "STEAMAPPLIST_INTERFACE_VERSION", "STEAMMUSIC_INTERFACE_VERSION",
    "STEAMMUSICREMOTE_INTERFACE_VERSION", "STEAMHTMLSURFACE_INTERFACE_VERSION",
    "STEAMVIDEO_INTERFACE", "SteamMasterServerUpdater", "SteamMatchGameSearch", "SteamParties",
    "SteamInput", "STEAMREMOTEPLAY_INTERFACE_VERSION",
    "STEAMPARENTALSETTINGS_INTERFACE_VERSION", "STEAMAPPTICKET_INTERFACE_VERSION"
  }

  /**
   * The family `GetISteamGenericInterface` dispatches to: the first prefix in
   * the chain that the token starts with, or none.
   */
  function GenericFamily(v: string): (r: Option<Family>)
    ensures r.Some? ==> exists p :: p in GenericPrefixes && StartsWith(v, p)
    ensures r != Some(Client)
  {
    if StartsWith(v, "SteamNetworkingSocketsSerialized") then Some(NetworkingSocketsSerialized)
    else if StartsWith(v, "SteamNetworkingSockets") then Some(NetworkingSockets)
    else if StartsWith(v, "SteamNetworkingMessages") then Some(NetworkingMessages)
    else if StartsWith(v, "SteamNetworkingUtils") then Some(NetworkingUtils)
    else if StartsWith(v, "SteamNetworking") then Some(Networking)
    else if StartsWith(v, "SteamGameCoordinator") then Some(GameCoordinator)
    else if StartsWith(v, "STEAMTV_INTERFACE_V") then Some(TV)
    else if StartsWith(v, "STEAMREMOTESTORAGE_INTERFACE_VERSION") then Some(RemoteStorage)
    else if StartsWith(v, "SteamGameServerStats") then Some(GameServerStats)
    else if StartsWith(v, "SteamGameServer") then Some(GameServer)
    else if StartsWith(v, "SteamMatchMakingServers") then Some(MatchMakingServers)
    else if StartsWith(v, "SteamMatchMaking") then Some(MatchMaking)
    else if StartsWith(v, "SteamFriends") then Some(Friends)
    else if StartsWith(v, "SteamController") || StartsWith(v, "STEAMCONTROLLER_INTERFACE_VERSION") then Some(Controller)
    else if StartsWith(v, "STEAMUGC_INTERFACE_VERSION") then Some(UGC)
    else if StartsWith(v, "STEAMINVENTORY_INTERFACE") then Some(Inventory)
    else if StartsWith(v, "STEAMUSERSTATS_INTERFACE_VERSION") then Some(UserStats)
    else if StartsWith(v, "SteamUser") then Some(User)
    else if StartsWith(v, "SteamUtils") then Some(Utils)
    else if StartsWith(v, "STEAMAPPS_INTERFACE_VERSION") then Some(Apps)
    else if StartsWith(v, "STEAMSCREENSHOTS_INTERFACE_VERSION") then Some(Screenshots)
    else if StartsWith(v, "STEAMHTTP_INTERFACE_VERSION") then Some(HTTP)
    else if StartsWith(v, "STEAMUNIFIEDMESSAGES_INTERFACE_VERSION") then Some(UnifiedMessages)
    else if StartsWith(v, "STEAMAPPLIST_INTERFACE_VERSION") then Some(AppList)
    else if StartsWith(v, "STEAMMUSIC_INTERFACE_VERSION") then Some(Music)
    else if StartsWith(v, "STEAMMUSICREMOTE_INTERFACE_VERSION") then Some(MusicRemote)
    else if StartsWith(v, "STEAMHTMLSURFACE_INTERFACE_VERSION") then Some(HTMLSurface)
    else if StartsWith(v, "STEAMVIDEO_INTERFACE") then Some(Video)
    else if StartsWith(v, "SteamMasterServerUpdater") then Some(MasterServerUpdater)
    else if StartsWith(v, "SteamMatchGameSearch") then Some(GameSearch)
    else if StartsWith(v, "SteamParties") then Some(Parties)
    else if StartsWith(v, "SteamInput") then Some(Input)
    else if StartsWith(v, "STEAMREMOTEPLAY_INTERFACE_VERSION") then Some(RemotePlay)
    else if StartsWith(v, "STEAMPARENTALSETTINGS_INTERFACE_VERSION") then Some(ParentalSettings)
    else if StartsWith(v, "STEAMAPPTICKET_INTERFACE_VERSION") then Some(AppTicket)
    else None
  }

  /** A token that starts with `known` cannot start with a prefix that differs from `known` at index `m`. */
  lemma Excludes(v: string, known: string, other: string, m: nat)
    requires StartsWith(v, known) && m < |known| && m < |other| && known[m] != other[m]
    ensures !StartsWith(v, other)
  {
  }

  /** A longer networking prefix wins over the shorter networking prefixes it extends. */
  lemma NetworkingPrefixesLongestFirst(v: string)
    ensures StartsWith(v, "SteamNetworkingSocketsSerialized")
      ==> GenericFamily(v) == Some(NetworkingSocketsSerialized)
    ensures StartsWith(v, "SteamNetworkingSockets")
      && !StartsWith(v, "SteamNetworkingSocketsSerialized")
      ==> GenericFamily(v) == Some(NetworkingSockets)
    ensures StartsWith(v, "SteamNetworkingMessages")
      ==> GenericFamily(v) == Some(NetworkingMessages)
    ensures StartsWith(v, "SteamNetworkingUtils")
      ==> GenericFamily(v) == Some(NetworkingUtils)
    ensures StartsWith(v, "SteamNetworking")
      && !StartsWith(v, "SteamNetworkingSocketsSerialized")
      && !StartsWith(v, "SteamNetworkingSockets")
      && !StartsWith(v, "SteamNetworkingMessages")
      && !StartsWith(v, "SteamNetworkingUtils")
      ==> GenericFamily(v) == Some(Networking)
  {
    if StartsWith(v, "SteamNetworkingMessages") {
      Excludes(v, "SteamNetworkingMessages", "SteamNetworkingSocketsSerialized", 15);
      Excludes(v, "SteamNetworkingMessages", "SteamNetworkingSockets", 15);
    }
    if StartsWith(v, "SteamNetworkingUtils") {
      Excludes(v, "SteamNetworkingUtils", "SteamNetworkingSocketsSerialized", 15);
      Excludes(v, "SteamNetworkingUtils", "SteamNetworkingSockets", 15);
      Excludes(v, "SteamNetworkingUtils", "SteamNetworkingMessages", 15);
    }
  }

  /** "SteamGameServerStats" is tested before "SteamGameServer", which it extends. */
  lemma GameServerPrefixesLongestFirst(v: string)
    ensures StartsWith(v, "SteamGameServerStats")
      ==> GenericFamily(v) == Some(GameServerStats)
    ensures StartsWith(v, "SteamGameServer")
      && !StartsWith(v, "SteamGameServerStats")
      ==> GenericFamily(v) == Some(GameServer)
  {
    if StartsWith(v, "SteamGameServerStats") {
      Excludes(v, "SteamGameServerStats", "SteamNetworkingSocketsSerialized", 5);
      Excludes(v, "SteamGameServerStats", "SteamNetworkingSockets", 5);
      Excludes(v, "SteamGameServerStats", "SteamNetworkingMessages", 5);
      Excludes(v, "SteamGameServerStats", "SteamNetworkingUtils", 5);
      Excludes(v, "SteamGameServerStats", "SteamNetworking", 5);
      Excludes(v, "SteamGameServerStats", "SteamGameCoordinator", 9);
      Excludes(v, "SteamGameServerStats", "STEAMTV_INTERFACE_V", 1);
      Excludes(v, "SteamGameServerStats", "STEAMREMOTESTORAGE_INTERFACE_VERSION", 1);
    }
    if StartsWith(v, "SteamGameServer") {
      Excludes(v, "SteamGameServer", "SteamNetworkingSocketsSerialized", 5);
      Excludes(v, "SteamGameServer", "SteamNetworkingSockets", 5);
      Excludes(v, "SteamGameServer", "SteamNetworkingMessages", 5);
      Excludes(v, "SteamGameServer", "SteamNetworkingUtils", 5);
      Excludes(v, "SteamGameServer", "SteamNetworking", 5);
      Excludes(v, "SteamGameServer", "SteamGameCoordinator", 9);
      Excludes(v, "SteamGameServer", "STEAMTV_INTERFACE_V", 1);
      Excludes(v, "SteamGameServer", "STEAMREMOTESTORAGE_INTERFACE_VERSION", 1);
    }
  }

  /** "SteamMatchMakingServers" is tested before "SteamMatchMaking", which it extends. */
  lemma MatchMakingPrefixesLongestFirst(v: string)
    ensures StartsWith(v, "SteamMatchMakingServers")
      ==> GenericFamily(v) == Some(MatchMakingServers)
    ensures StartsWith(v, "SteamMatchMaking")
      && !StartsWith(v, "SteamMatchMakingServers")
      ==> GenericFamily(v) == Some(MatchMaking)
  {
    if StartsWith(v, "SteamMatchMakingServers") {
      Excludes(v, "SteamMatchMakingServers", "SteamNetworkingSocketsSerialized", 5);
      Excludes(v, "SteamMatchMakingServers", "SteamNetworkingSockets", 5);
      Excludes(v, "SteamMatchMakingServers", "SteamNetworkingMessages", 5);
      Excludes(v, "SteamMatchMakingServers", "SteamNetworkingUtils", 5);
      Excludes(v, "SteamMatchMakingServers", "SteamNetworking", 5);
      Excludes(v, "SteamMatchMakingServers", "SteamGameCoordinator", 5);
      Excludes(v, "SteamMatchMakingServers", "STEAMTV_INTERFACE_V", 1);
      Excludes(v, "SteamMatchMakingServers", "STEAMREMOTESTORAGE_INTERFACE_VERSION", 1);
      Excludes(v, "SteamMatchMakingServers", "SteamGameServerStats", 5);
      Excludes(v, "SteamMatchMakingServers", "SteamGameServer", 5);
    }
    if StartsWith(v, "SteamMatchMaking") {
      Excludes(v, "SteamMatchMaking", "SteamNetworkingSocketsSerialized", 5);
      Excludes(v, "SteamMatchMaking", "SteamNetworkingSockets", 5);
      Excludes(v, "SteamMatchMaking", "SteamNetworkingMessages", 5);
      Excludes(v, "SteamMatchMaking", "SteamNetworkingUtils", 5);
      Excludes(v, "SteamMatchMaking", "SteamNetworking", 5);
      Excludes(v, "SteamMatchMaking", "SteamGameCoordinator", 5);
      Excludes(v, "SteamMatchMaking", "STEAMTV_INTERFACE_V", 1);
      Excludes(v, "SteamMatchMaking", "STEAMREMOTESTORAGE_INTERFACE_VERSION", 1);
      Excludes(v, "SteamMatchMaking", "SteamGameServerStats", 5);
      Excludes(v, "SteamMatchMaking", "SteamGameServer", 5);
    }
  }

  /** "SteamUtils" reaches the utils getter: no earlier prefix in the chain is a prefix of it. */
  lemma UtilsPrefixSelectsUtils(v: string)
    ensures StartsWith(v, "SteamUtils") ==> GenericFamily(v) == Some(Utils)
  {
    if StartsWith(v, "SteamUtils") {
      Excludes(v, "SteamUtils", "SteamNetworkingSocketsSerialized", 5);
      Excludes(v, "SteamUtils", "SteamNetworkingSockets", 5);
      Excludes(v, "SteamUtils", "SteamNetworkingMessages", 5);
      Excludes(v, "SteamUtils", "SteamNetworkingUtils", 5);
      Excludes(v, "SteamUtils", "SteamNetworking", 5);
      Excludes(v, "SteamUtils", "SteamGameCoordinator", 5);
      Excludes(v, "SteamUtils", "STEAMTV_INTERFACE_V", 1);
      Excludes(v, "SteamUtils", "STEAMREMOTESTORAGE_INTERFACE_VERSION", 1);
      Excludes(v, "SteamUtils", "SteamGameServerStats", 5);
      Excludes(v, "SteamUtils", "SteamGameServer", 5);
      Excludes(v, "SteamUtils", "SteamMatchMakingServers", 5);
      Excludes(v, "SteamUtils", "SteamMatchMaking", 5);
      Excludes(v, "SteamUtils", "SteamFriends", 5);
      Excludes(v, "SteamUtils", "SteamController", 5);
      Excludes(v, "SteamUtils", "STEAMCONTROLLER_INTERFACE_VERSION", 1);
      Excludes(v, "SteamUtils", "STEAMUGC_INTERFACE_VERSION", 1);
      Excludes(v, "SteamUtils", "STEAMINVENTORY_INTERFACE", 1);
      Excludes(v, "SteamUtils", "STEAMUSERSTATS_INTERFACE_VERSION", 1);
      Excludes(v, "SteamUtils", "SteamUser", 6);
    }
  }
}
