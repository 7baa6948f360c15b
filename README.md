# gbe_fork session, versioning and dispatch core in Dafny

This project models the part of the gbe_fork Steam emulator that keeps
sessions, resolves interface versions and dispatches callbacks. It covers two
source files, `dll/steam_client.cpp` and `dll/dll.cpp`, and states and proves
what their bookkeeping guarantees.

- `versions.dfy` (module `InterfaceVersions`) holds the version tables.
  - For each interface family it gives the map from version token to adapter
    shim that the family's `GetISteam*` if-chain implements.
  - It also holds the fallback shim, the two ipv6 latch predicates, the "old
    game server" predicate and the prefix chain of `GetISteamGenericInterface`.
  - An interface pointer is an `Adapter(family, shim, instance)` tag. The
    pointer cast the source performs is left out.
- `registry.dfy` (module `Registry`) models `Steam_Client` as the class
  `SteamClient`, whose methods update the pipe map `map<int, Role>`, the pipe
  counter and the session flags in place.
  - Getters are functions of the pipe's role, the user handle and the token.
  - One `RunCallbacks` pass is a fixed sequence of subsystem calls.
  - Calls into subsystems outside the model (networking, overlay, callback
    registries, the game server object) are appended to a `trace` as
    `Event`s. Each event records whether `cb_run_active` was set at the time.
  - `KeepaliveSignal` is the shared `kill_background_thread` flag.
- `lifecycle.dfy` (module `Lifecycle`) models the static globals of
  `dll/dll.cpp` as fields of the class `SteamApi`:
  - the singleton client and whether it exists;
  - `global_counter`, a `uintp` that wraps modulo 2^32 or 2^64, as the build's `PointerWidth` says;
  - the user and server pipes;
  - the 128-byte `old_*` version buffers, derived from the `loaded` flag;
  - the cached `old_*_instance` pointers, as a map from `Slot`;
  - `g_pSteamClientGameServer` and the client ipv6 flag;
  - the two manual-dispatch FIFOs.

  Every exported entry point in the core is a method that states the whole
  new state. Where the entry point calls the client, the state is stated
  through named transitions of `ClientView`: `Connected`, `LocalUserCreated`,
  `ReleasedAndClosed`, `Logged` and `Ran`. Lemmas about those transitions and
  about the queue functions carry the multi-call properties.

Header values are constructor parameters of `SteamApi`:
- `CLIENT_HSTEAMUSER` and `SERVER_HSTEAMUSER` (both non-zero);
- the first handle of `steam_pipe_counter` (positive);
- `settings_client->disable_overlay`;
- the pointer width of the build (`width`);
- the `*_INTERFACE_VERSION` macros (`defaults`);
- the `settings_old_interfaces()` map (`settings`).

The current-version branch and the final `else` of every getter return the
same adapter. Which string a macro holds therefore does not change what a
getter resolves.

## Model

| member | source | states |
|---|---|---|
| InterfaceVersions.Versions | dll/steam_client.cpp:378-1454 | every token a getter compares with `strcmp` is cast to a numbered interface; the newest interface is reached only through the current-version branch and the final `else` |
| InterfaceVersions.Fallback | dll/steam_client.cpp:629-646 | the current-version branch and the final `else` return the newest interface, except in the NetworkingSocketsSerialized chain, which ends in the 005 interface |
| InterfaceVersions.ResolveShim | dll/steam_client.cpp:378-418 | a getter returns the newest interface only for a token it does not list, and every unlisted token gets the fallback |
| InterfaceVersions.GameServerAliases | dll/steam_client.cpp:421-459 | GameServer006 and 007 are served by the 008 shim |
| InterfaceVersions.MatchMakingAliases | dll/steam_client.cpp:560-591 | MatchMaking001 is served by the 002 shim |
| InterfaceVersions.UserStatsAliases | dll/steam_client.cpp:789-827 | UserStats 001 and 002 are served by the 003 shim |
| InterfaceVersions.UGCAliases | dll/steam_client.cpp:1129-1188 | UGC011 is served by the 012 shim, and the bare UGC token by the 001 shim |
| InterfaceVersions.UnknownTokensFallBack | dll/steam_client.cpp:378-418 | a token a getter does not list selects the final `else` shim, which is the newest one for every family except NetworkingSocketsSerialized |
| InterfaceVersions.GameServerIpv6Tokens | dll/steam_client.cpp:421-459 | the game server ipv6 latch is raised exactly by the tokens other than 004-012, i.e. exactly by those whose shim is 013 or newer |
| InterfaceVersions.RaisesGameServerIpv6 | dll/steam_client.cpp:426-456 | the latch is set only on branches that cast to the 013, 014 or newest game server interface; every other branch casts to 012 or older |
| InterfaceVersions.OldGameServerTokens | dll/dll.cpp:919-946 | among known tokens, "old game server" (equal to 010 or starting with "SteamGameServer00") holds exactly for shims 010 and older |
| InterfaceVersions.IsOldGameServer | dll/dll.cpp:928 | the "old game server" test holds only for tokens that start with "SteamGameServer0" |
| InterfaceVersions.ClientShim | dll/dll.cpp:210-255 | a client shim exists iff the token starts with "SteamClient"; an unlisted "SteamClient" token gets the newest shim |
| InterfaceVersions.ClientIpv6Tokens | dll/dll.cpp:210-255 | the client ipv6 flag is raised exactly by the tokens resolved to the newest client shim |
| InterfaceVersions.RaisesClientIpv6 | dll/dll.cpp:244-250 | the client flag is set only on the branches that hand out the newest client interface |
| InterfaceVersions.GenericFamily | dll/steam_client.cpp:629-781 | the generic resolver picks a family only when the token starts with one of its prefixes, and never the client family |
| InterfaceVersions.NetworkingPrefixesLongestFirst | dll/steam_client.cpp:627-701 | SteamNetworkingSocketsSerialized wins over SteamNetworkingSockets; Messages and Utils win over SteamNetworking; SteamNetworking is chosen only when no longer networking prefix matches |
| InterfaceVersions.GameServerPrefixesLongestFirst | dll/steam_client.cpp:723-726 | SteamGameServerStats is chosen before SteamGameServer |
| InterfaceVersions.MatchMakingPrefixesLongestFirst | dll/steam_client.cpp:727-730 | SteamMatchMakingServers is chosen before SteamMatchMaking |
| InterfaceVersions.UtilsPrefixSelectsUtils | dll/steam_client.cpp:743-744 | a "SteamUtils" token reaches the utils getter; no earlier prefix captures it |
| Registry.RunOrderShape | dll/steam_client.cpp:1936-1973 | a pass runs network, matchmaking servers, every-run hooks and the game server first, then the client call results iff `runClientCB` and the server call results iff `runGameserverCB`, then the server and finally the client callbacks, all with `cb_run_active` set |
| Registry.RunOrder | dll/steam_client.cpp:1940-1971 | a pass makes six calls plus one per call-result side that is asked for, each with `cb_run_active` set |
| Registry.TickDueTiming | dll/steam_client.cpp:56 | the `TickDue` test of the keepalive: it never runs a pass while one is active or right after one ran, and a due pass stays due as time passes |
| Registry.Getter | dll/steam_client.cpp:378-418 | a getter answers only on a registered pipe, and with an adapter of its own family |
| Registry.GetterNullExactly | dll/steam_client.cpp:378-381 | a getter is null iff the pipe is unregistered, or the user is 0 for a family other than utils, or the family is the content server (always null, lines 1374-1379) |
| Registry.UtilsIgnoresUser | dll/steam_client.cpp:519-523 | `GetISteamUtils` checks only the pipe: user 0 still gets the interface |
| Registry.UnknownVersionFallsBack | dll/steam_client.cpp:413-415 | once the checks pass, an unlisted token is never null and gets the fallback (newest) shim |
| Registry.RoleSelectsCopy | dll/steam_client.cpp:1135-1139 | role-split families serve the game server's object on a SERVER pipe and the client's on any other pipe |
| Registry.GenericInterface | dll/steam_client.cpp:613-786 | the generic result is non-null only on a registered pipe, for the family of its matching prefix, with the shim that family's table selects |
| Registry.GenericUnknownFamilyIsNull | dll/steam_client.cpp:777-785 | a token that matches no prefix yields null on every pipe and for every user |
| Registry.GenericClientNeedsUser | dll/steam_client.cpp:617-625 | on a pipe that is not SERVER, user 0 gets null unless the token starts with SteamNetworkingUtils or SteamUtils |
| Registry.GenericUtilsWithoutUser | dll/steam_client.cpp:617-625 | the two exempt prefixes are served on any registered pipe even for user 0 |
| Registry.GenericDelegates | dll/steam_client.cpp:721-778 | a family with its own getter is served exactly as that getter serves it |
| Registry.GenericServerInlineIgnoresUser | dll/steam_client.cpp:617-720 | on a SERVER pipe the inline families (networking sockets, messages, utils, game coordinator, TV) are served for user 0, the game server copy where the family is split |
| Registry.SteamClient.CreateSteamPipe | dll/steam_client.cpp:291-299 | returns the counter's value, which was not registered; the counter moves on by one; the handle is added as NO_USER and nothing else changes |
| Registry.SteamClient.BReleaseSteamPipe | dll/steam_client.cpp:305-313 | true iff the handle was registered; afterwards it is absent and no other entry changes |
| Registry.SteamClient.ConnectToGlobalUser | dll/steam_client.cpp:318-340 | 0 and no change on an unregistered pipe; otherwise the user is logged in, the overlay set up unless disabled, the keepalive spawned only if not joinable, the pipe bound as CLIENT, and the client user returned |
| Registry.SteamClient.UserLogIn | dll/steam_client.cpp:239-243 | the listen id is announced and the user is logged in |
| Registry.SteamClient.StartKeepalive | dll/steam_client.cpp:333-336 | the keepalive is spawned only when none is joinable, so repeated connects spawn it at most once |
| Registry.SteamClient.CreateLocalUser | dll/steam_client.cpp:344-365 | sets `server_init` and `steamclient_server_inited`, registers a fresh SERVER pipe, writes its handle only when asked to, and returns the server user |
| Registry.SteamClient.ClientShutdown | dll/steam_client.cpp:265-268 | only `user_logged_in` is cleared |
| Registry.SteamClient.ServerShutdown | dll/steam_client.cpp:260-263 | only `server_init` is cleared |
| Registry.SteamClient.ReleaseUser | dll/steam_client.cpp:369-375 | `steamclient_server_inited` is cleared iff the user is the server user and the pipe is registered |
| Registry.SteamClient.BShutdownIfAllPipesClosed | dll/steam_client.cpp:1009-1033 | false and no change while any pipe is registered; otherwise a joinable keepalive is signalled and joined, and the controller is shut down and the overlay torn down unless it is disabled |
| Registry.SteamClient.GetGameServer | dll/steam_client.cpp:421-459 | the getter result; the latch is raised by 013, 014, the current or an unknown token once the checks pass, and is never lowered |
| Registry.SteamClient.GetGenericInterface | dll/steam_client.cpp:613-786 | the generic result; the ipv6 latch moves only when the game server getter is reached |
| Registry.SteamClient.RegisterCallback | dll/steam_client.cpp:1688-1692 | adds to exactly one registry, the game server's iff the callback belongs to the game server |
| Registry.SteamClient.UnregisterCallback | dll/steam_client.cpp:1912-1916 | removes from exactly one registry, chosen the same way |
| Registry.SteamClient.RegisterCallResult | dll/steam_client.cpp:1919-1926 | adds to the client's call-result registry, then to the server's |
| Registry.SteamClient.UnregisterCallResult | dll/steam_client.cpp:1928-1934 | removes from both call-result registries |
| Registry.SteamClient.RunCallbacks | dll/steam_client.cpp:1936-1973 | the trace grows by exactly the `RunOrder` pass, each step made with `cb_run_active` set; at exit the flag is clear and `last_cb_run` holds the clock reading |
| Registry.SteamClient.KeepaliveTick | dll/steam_client.cpp:43-62 | a wake-up fires iff the thread is alive and not signalled, no pass is active and 200 ms have passed since the last one; then it records the time and runs only networking and the every-run hooks |
| Lifecycle.Inc | dll/dll.cpp:265 | `global_counter` stays within the `uintp` width of the build, 32 or 64 bits, and wraps from its largest value to 0 |
| Lifecycle.Dec | dll/dll.cpp:357 | `--global_counter` stays within the `uintp` width, and from 0 it wraps to the largest value |
| Lifecycle.DecUndoesInc | dll/dll.cpp:265 | a decrement undoes an increment and vice versa, also across the wrap |
| Lifecycle.UnmatchedShutdownWraps | dll/dll.cpp:357 | the unchecked decrement of a shutdown without an init leaves the counter at its largest value, not at 0: 2^32-1 on a 32-bit build, 2^64-1 on a 64-bit one |
| Lifecycle.Padded | dll/dll.cpp:23-46 | a buffer initialised from a macro holds the macro followed by zeros, 128 bytes in all |
| Lifecycle.Overwritten | dll/dll.cpp:90-97 | one `SET_OLD_ITF` write zeroes the buffer and copies at most 127 characters, so the last byte stays zero |
| Lifecycle.OverwrittenReadsBack | dll/dll.cpp:90-97 | an override without zeros reads back as its first 127 characters: truncated, never unterminated |
| Lifecycle.PaddedReadsBack | dll/dll.cpp:23-46 | a macro value reads back from its buffer unchanged |
| Lifecycle.CString | dll/dll.cpp:637 | reading a buffer as a C string yields a NUL-free prefix of it that ends at the first NUL or at the end of the buffer |
| Lifecycle.ApplyOverride | dll/dll.cpp:90-97 | a buffer is replaced exactly when its setting is present and non-empty |
| Lifecycle.InitialBuffers | dll/dll.cpp:23-46 | there are 24 buffers, one per family with a `SET_OLD_ITF` line, each holding its macro |
| Lifecycle.LoadedBuffers | dll/dll.cpp:81-153 | after loading, every buffer is its initial contents with its setting applied |
| Lifecycle.LoadingTwiceIsLoadingOnce | dll/dll.cpp:81-153 | applying the settings a second time changes no buffer |
| Lifecycle.LoadedVersions | dll/dll.cpp:81-153 | a loaded buffer reads back as its macro, or as its non-empty setting cut at 127 characters |
| Lifecycle.AccessorsAreSlots | dll/dll.cpp:642-818 | each of the 21 client and 9 game server accessors uses a family that has a getter and a version buffer, except `SteamParentalSettings`, which passes "" |
| Lifecycle.ServerCaches | dll/dll.cpp:359-379 | `SteamAPI_Shutdown` keeps exactly the game server caches, unchanged |
| Lifecycle.ClientCaches | dll/dll.cpp:957-965 | `SteamGameServer_Shutdown` keeps exactly the client caches, unchanged |
| Lifecycle.ShutdownsClearDisjointCaches | dll/dll.cpp:349-384 | the two shutdowns clear disjoint halves that together cover every cache, so doing both in either order clears all of them |
| Lifecycle.LastShutdownStopsKeepalive | dll/dll.cpp:352-354 | releasing the last pipe stops the keepalive, signals it iff it was joinable and tears the overlay down |
| Lifecycle.OtherPipeKeepsClientUp | dll/dll.cpp:352-354 | while another pipe stays registered, release and close change nothing but the pipe map and do not signal the keepalive |
| Lifecycle.InitThenShutdownRestoresPipes | dll/dll.cpp:323-384 | `SteamAPI_Init` followed by `SteamAPI_Shutdown` leaves the other pipes as they were |
| Lifecycle.ClientInterface | dll/dll.cpp:210-255 | `create_client_interface` is non-null iff the token starts with "SteamClient", and then it is the shared client object |
| Lifecycle.QueueOf | dll/dll.cpp:1086-1097 | a SERVER pipe reads the server queue, a CLIENT pipe the client queue, and a NO_USER pipe has none |
| Lifecycle.Purged | dll/dll.cpp:1076-1078 | the server queue is emptied when the server is not initialised; the client queue is untouched |
| Lifecycle.NextMessage | dll/dll.cpp:1072-1115 | a message exists iff the pipe is registered and not NO_USER, its queue is non-empty and a message pointer was given; it carries the role's user and the front event's id, payload and size |
| Lifecycle.Freed | dll/dll.cpp:1118-1137 | the front is popped only for a CLIENT or SERVER pipe with a non-empty queue; otherwise nothing changes |
| Lifecycle.PeekIsStable | dll/dll.cpp:1072-1115 | fetching does not consume: a second fetch with no free in between returns the same message |
| Lifecycle.AsMessages | dll/dll.cpp:1105-1109 | each queued event becomes, in the same position, a message with the role's user and the event's id, payload and size |
| Lifecycle.Delivered | dll/dll.cpp:1066-1137 | the fetch-then-free loop on a CLIENT or SERVER pipe yields one message per queued event of that role, each for that role's user; a NO_USER pipe yields none |
| Lifecycle.DeliveredInQueueOrder | dll/dll.cpp:1072-1137 | fetching and freeing on a CLIENT or SERVER pipe until the fetch fails delivers exactly that role's queue, front first, each event as the message `GetNextCallback` fills in; a NO_USER pipe gets nothing |
| Lifecycle.PushedIsDeliveredLast | dll/dll.cpp:1020-1036 | an event pushed by `cb_add_queue_client` or `cb_add_queue_server` is delivered after everything already queued for that role, and the other role's delivery is unchanged |
| Lifecycle.PurgedServerDeliversNothing | dll/dll.cpp:1076-1078 | after the purge of an uninitialised server the SERVER pipe receives nothing and the CLIENT pipe everything it would have |
| Lifecycle.SteamApi.Buffers | dll/dll.cpp:23-46 | the buffers are the initial ones until loading and the loaded ones afterwards |
| Lifecycle.SteamApi.LoadOldSteamInterfaces | dll/dll.cpp:81-153 | the body runs only on the first call; afterwards the buffers are the loaded ones |
| Lifecycle.SteamApi.GetSteamClient | dll/dll.cpp:171-183 | returns the existing client unchanged; a new client is built, after loading the buffers, only when none exists |
| Lifecycle.SteamApi.DestroyClient | dll/dll.cpp:185-192 | afterwards there is no client; a no-op when there is none |
| Lifecycle.SteamApi.GetHSteamUser | dll/dll.cpp:157-162 | the client user while logged in, else 0 |
| Lifecycle.SteamApi.GameServerGetHSteamUser | dll/dll.cpp:840-845 | the server user while the server is initialised, else 0 |
| Lifecycle.SteamApi.HasIpv6Functions | dll/dll.cpp:205-208 | the OR of the game server latch and the client flag |
| Lifecycle.SteamApi.CreateClientInterface | dll/dll.cpp:210-255 | `create_client_interface`, also behind `CreateInterface` (lines 1298-1302): the client adapter for a "SteamClient" token; the flag is raised by the current or an unknown version and left alone by the listed 007-020 |
| Lifecycle.SteamApi.SteamInternalCreateInterface | dll/dll.cpp:257-263 | null unless the user is logged in or the server initialised, else the client-interface result |
| Lifecycle.SteamApi.SteamClientOld | dll/dll.cpp:631-638 | `SteamClient()`: null unless the user is logged in, else the interface named by the client buffer |
| Lifecycle.SteamApi.GameServerClient | dll/dll.cpp:990-995 | null unless the server is initialised, else the interface named by the client buffer |
| Lifecycle.SteamApi.ContextInit | dll/dll.cpp:268-279 | `pFn` runs iff the block's counter differs from `global_counter`, after which they are equal, so a second call without a generation change does not run it |
| Lifecycle.SteamApi.Init | dll/dll.cpp:323-339 | true; no change while the user pipe is set; otherwise a fresh pipe becomes the user pipe, is bound as CLIENT, and the counter moves on exactly once |
| Lifecycle.SteamApi.Shutdown | dll/dll.cpp:349-384 | logs the user out, releases the user pipe and closes if none is left, resets the user pipe, decrements the counter without a check, clears exactly the client caches, keeps the buffers loaded, and leaves a client iff the counter is non-zero |
| Lifecycle.SteamApi.DestroyIfUnreferenced | dll/dll.cpp:381-383 | the client is destroyed iff the counter is 0, and survives otherwise |
| Lifecycle.SteamApi.ReleaseAndClose | dll/dll.cpp:353-354 | `BReleaseSteamPipe` followed by `BShutdownIfAllPipesClosed`, as the `ReleasedAndClosed` transition and its effect on the kill flag |
| Lifecycle.SteamApi.GameServerInit | dll/dll.cpp:880-895 | only the first call creates the server pipe, bumps the counter, fetches the old client interface and may raise the ipv6 flag, and later calls leave all four as they were; every call starts the game server with the address, ports, secure flag and version, and returns its answer |
| Lifecycle.SteamApi.CreateServerUser | dll/dll.cpp:884-890 | a fresh SERVER pipe becomes the server pipe, the counter moves on once, and `g_pSteamClientGameServer` is the interface the client buffer names |
| Lifecycle.SteamApi.GameServerInitLegacy | dll/dll.cpp:919-946 | the game server init with the same first-call and later-call state changes, followed by an anonymous logon iff the loaded game server buffer names an old version |
| Lifecycle.SteamApi.GameServerShutdown | dll/dll.cpp:948-970 | the server side of `Shutdown`: resets the server pipe, decrements the counter without a check, drops `g_pSteamClientGameServer`, clears exactly the game server caches, keeps the buffers loaded, and leaves a client iff the counter is non-zero |
| Lifecycle.SteamApi.OldInterface | dll/dll.cpp:640 | `CACHE_OLDSTEAM_INSTANCE`: a cached instance is returned as is and nothing changes; otherwise the accessor's getter result is returned and cached iff non-null |
| Lifecycle.SteamApi.FetchSlot | dll/dll.cpp:642-818 | an accessor asks its getter with its role pipe, its role user and its buffer's version |
| Lifecycle.SteamApi.AskSlot | dll/dll.cpp:642-818 | the same getter call on the live client; only the `SteamGameServer()` accessor can raise the ipv6 latch |
| Lifecycle.SteamApi.FindOrCreateUserInterface | dll/dll.cpp:533-537 | the generic resolver on the user pipe |
| Lifecycle.SteamApi.FindOrCreateGameServerInterface | dll/dll.cpp:539-543 | the generic resolver on the server pipe |
| Lifecycle.SteamApi.RunCallbacks | dll/dll.cpp:476-481 | one pass with client call results only |
| Lifecycle.SteamApi.GameServerRunCallbacks | dll/dll.cpp:972-976 | one pass with server call results only |
| Lifecycle.SteamApi.RegisterCallback | dll/dll.cpp:498-503 | forwards to the client, creating it if needed |
| Lifecycle.SteamApi.UnregisterCallback | dll/dll.cpp:505-511 | forwards only when a client exists; otherwise nothing happens |
| Lifecycle.SteamApi.RegisterCallResult | dll/dll.cpp:514-521 | nothing happens for call handle 0; otherwise it registers with both registries |
| Lifecycle.SteamApi.UnregisterCallResult | dll/dll.cpp:523-531 | nothing happens for call handle 0 or without a client; otherwise it removes from both |
| Lifecycle.SteamApi.CbAddQueueClient | dll/dll.cpp:1029-1036 | the event joins the back of the client queue; the server queue is untouched |
| Lifecycle.SteamApi.CbAddQueueServer | dll/dll.cpp:1020-1027 | the event joins the back of the server queue; the client queue is untouched |
| Lifecycle.SteamApi.ManualDispatchInit | dll/dll.cpp:1040-1050 | only the first call installs the two hooks, the server's before the client's |
| Lifecycle.SteamApi.RunFrame | dll/dll.cpp:1053-1067 | a server pass on a SERVER pipe, a client pass on a CLIENT pipe, nothing on any other pipe |
| Lifecycle.SteamApi.GetNextCallback | dll/dll.cpp:1072-1115 | the server queue is purged first whatever the pipe; the result is `NextMessage` of the purged queues, and true iff a message was filled in |
| Lifecycle.SteamApi.FreeLastCallback | dll/dll.cpp:1118-1137 | the queues become `Freed` of the pipe's role |
| Lifecycle.SteamApi.GetAPICallResult | dll/dll.cpp:1141-1156 | the server utils on a SERVER pipe and the client utils on a CLIENT pipe are asked, and their answer returned; false on any other pipe |
| Lifecycle.SteamApi.BGetCallback | dll/dll.cpp:1277-1284 | dispatch set up once, one pass for both roles, then `GetNextCallback` |

## Left out

- Threads and locks: `global_mutex`, the kill mutex and condition variable, and the one-second wait and `join` in `background_thread`. The keepalive loop is reduced to one wake-up step, `KeepaliveTick`, with the clock reading as a parameter. `RunCallbacks` takes its clock reading the same way.
- The `Steam_Client` constructor and destructor and `setAppID`. They allocate opaque subsystems, load settings and write environment variables. The model's constructor gives only the initial values of the modelled fields.
- Pointer casts to `ISteam*NNN` interfaces. They become `Adapter` tags. Which object a getter casts is recorded only as `Shared`, `ClientCopy` or `ServerCopy`.
- What the subsystems do internally: networking, overlay, controller, callback and call-result registries, `InitGameServer`, `LogOnAnonymous` and `Steam_Utils::GetAPICallResult`. They appear only as trace events. The answers of `InitGameServer` and `GetAPICallResult` are parameters.
- The debug-logging switch statements in `RegisterCallback` and `UnregisterCallback`.
- The memcpy reinterpretation of the arguments in `SteamGameServer_Init` and `SteamGameServer_InitSafe`. The model takes the address and ports as they are after that shuffle, and models the "old game server" test and the resulting anonymous logon.
- The thin wrappers with nothing of their own:
  - the error-message copies in `SteamInternal_SteamAPI_Init`, `SteamAPI_InitFlat` and `SteamInternal_GameServer_Init_V2`;
  - `SteamAPI_InitSafe`, `SteamAPI_InitAnonymousUser` and `SteamGameServerInternal_CreateInterface`;
  - `Steam_RunCallbacks`, `Steam_FreeLastCallback` and `Steam_GetAPICallResult`;
  - `SteamAPI_GetHSteamPipe` and `SteamGameServer_GetHSteamPipe`, which read the pipe fields the model holds directly.
- The stub exports (`Steam_GS*`, `VR_*`, `Breakpad_*`, `Steam_BConnected` and the like), `SteamAPI_GetSteamInstallPath`, and `dll/dll/settings_parser.h`, which holds declarations only. How the settings are parsed is not part of this model; the result is the `settings` parameter.
- Registry.SteamClient.CreateSteamPipe: `steam_pipe_counter` is an unbounded integer, so a 32-bit `HSteamPipe` overflow is not modelled. It would need about 2^31 pipes.
- The `manual_dispatch_called` atomic compare-exchange is a plain flag. The `setCbAll` hooks appear as trace events and are not connected to the queues. `CbAddQueueClient` and `CbAddQueueServer` stand for what those hooks do when a call result completes.
- After `destroy_client` the `client` field still refers to the destroyed object, with `live` false. No method reads that object while `live` is false.
