/**
 * The client object of dll/steam_client.cpp: the pipe registry, the
 * per-family interface getters, the generic resolver, callback routing and
 * the order of one `RunCallbacks` pass.
 *
 * Calls into subsystems that are not part of this model (networking, the
 * overlay, the callback registries, the game server object) are recorded as
 * events appended to `trace`; each event carries whether a callback pass was
 * active when it happened.
 */
module Registry {
  import opened InterfaceVersions

  /** What a registered pipe is bound to. */
  datatype Role = NoUser | ClientRole | ServerRole

  /** The client-side or the game-server-side copy of a subsystem. */
  datatype Side = ClientSide | ServerSide

  /** A callback object: its identity, the id it reports and whether it belongs to the game server. */
  datatype Callback = Callback(handle: nat, iCallback: int, isServer: bool)

  /** A call into a subsystem outside the model. */
  datatype Event =
    | AddListenId
    | SetupOverlay
    | UnSetupOverlay
    | ControllerShutdown
    | SpawnKeepalive
    | NetworkRun
    | MatchmakingServersRun
    | RunEveryRunCb
    | GameServerRun
    | CallResultsRun(side: Side)
    | CallbacksRun(side: Side)
    | AddCallback(side: Side, iCallback: int, handle: nat)
    | RemoveCallback(side: Side, iCallback: int, handle: nat)
    | AddCallResult(side: Side, call: nat, handle: nat)
    | RemoveCallResult(side: Side, call: nat, handle: nat)
    | SetCbAll(side: Side)
    | InitGameServer(ip: nat, gamePort: nat, queryPort: nat, secure: bool, version: string)
    | LogOnAnonymous
    | GetAPICallResult(side: Side, call: nat)

  /** One recorded event and whether `cb_run_active` was set when it happened. */
  datatype Entry = Entry(event: Event, inRun: bool)

  /** The registry a callback belongs to. */
  function SideOf(isServer: bool): Side
  {
    if isServer then ServerSide else ClientSide
  }

  /** Longest stretch in milliseconds the keepalive lets pass without a callback pass. */
  const MaxStallMs: nat := 200

  /** The keepalive runs a pass when none is active and the last one is at least `MaxStallMs` old. */
  predicate TickDue(cbRunActive: bool, lastCbRun: nat, now: nat)
  {
    !cbRunActive && now >= lastCbRun + MaxStallMs
  }

  /**
   * No pass is due while one is active or right after one has run, and a due
   * pass stays due as time goes on.
   */
  lemma TickDueTiming(cbRunActive: bool, lastCbRun: nat, now: nat, later: nat)
    requires now <= later
    ensures cbRunActive ==> !TickDue(cbRunActive, lastCbRun, now)
    ensures !TickDue(cbRunActive, now, now)
    ensures TickDue(cbRunActive, lastCbRun, now) ==> TickDue(cbRunActive, lastCbRun, later)
  {
  }

  /**
   * The subsystem calls of one `RunCallbacks(runClientCB, runGameserverCB)`
   * pass, in order, each made while `cb_run_active` is set.
   */
  function RunOrder(runClient: bool, runServer: bool): (r: seq<Entry>)
    ensures forall i :: 0 <= i < |r| ==> r[i].inRun
    ensures |r| == 6 + (if runClient then 1 else 0) + (if runServer then 1 else 0)
  {
    [Entry(NetworkRun, true), Entry(MatchmakingServersRun, true),
     Entry(RunEveryRunCb, true), Entry(GameServerRun, true)]
    + (if runClient then [Entry(CallResultsRun(ClientSide), true)] else [])
    + (if runServer then [Entry(CallResultsRun(ServerSide), true)] else [])
    + [Entry(CallbacksRun(ServerSide), true), Entry(CallbacksRun(ClientSide), true)]
  }

  /**
   * Networking runs first and the client callbacks last; a call-result
   * registry runs exactly when its flag is set, the client's before the
   * server's, and both before the callback registries.
   */
  lemma RunOrderShape(runClient: bool, runServer: bool)
    ensures var r := RunOrder(runClient, runServer);
      |r| == 6 + (if runClient then 1 else 0) + (if runServer then 1 else 0)
      && (forall i :: 0 <= i < |r| ==> r[i].inRun)
      && r[0].event == NetworkRun && r[1].event == MatchmakingServersRun
      && r[2].event == RunEveryRunCb && r[3].event == GameServerRun
      && r[|r| - 2].event == CallbacksRun(ServerSide) && r[|r| - 1].event == CallbacksRun(ClientSide)
      && (Entry(CallResultsRun(ClientSide), true) in r <==> runClient)
      && (Entry(CallResultsRun(ServerSide), true) in r <==> runServer)
      && (runClient ==> r[4].event == CallResultsRun(ClientSide))
      && (runServer ==> r[|r| - 3].event == CallResultsRun(ServerSide))
  {
  }

  /** Families with a getter of their own; the others exist only inside the generic resolver or `create_client_interface`. */
  predicate HasGetter(f: Family)
  {
    f !in {Client, NetworkingSocketsSerialized, NetworkingSockets, NetworkingMessages,
           NetworkingUtils, GameCoordinator, TV}
  }

  /** The object a getter serves for family `f` on a pipe bound to `role`. */
  function InstanceFor(f: Family, role: Role): Instance
  {
    if !RoleSplit(f) then Shared else if role == ServerRole then ServerCopy else ClientCopy
  }

  /**
   * `GetISteam<f>(hSteamUser, hSteamPipe, pchVersion)`: null on an unregistered
   * pipe (`role` is None) or, except for utils, a zero user; the content
   * server getter is null always; otherwise the shim the token selects.
   */
  function Getter(f: Family, role: Option<Role>, user: int, v: string): (r: Option<Adapter>)
    requires HasGetter(f)
    ensures r.Some? ==> role.Some? && r.value.family == f
  {
    if role.None? || (f != Utils && user == 0) || f == ContentServer then None
    else Some(Adapter(f, ResolveShim(f, v), InstanceFor(f, role.value)))
  }

  /** The null cases of the getters, in both directions. */
  lemma GetterNullExactly(f: Family, role: Option<Role>, user: int, v: string)
    requires HasGetter(f)
    ensures Getter(f, role, user, v).None? <==> role.None? || (f != Utils && user == 0) || f == ContentServer
  {
  }

  /** The utils getter checks only the pipe: a zero user still gets the interface. */
  lemma UtilsIgnoresUser(role: Role, v: string)
    ensures Getter(Utils, Some(role), 0, v).Some?
  {
  }

  /** A token the getter does not list is never null once the checks pass: it gets the fallback shim. */
  lemma UnknownVersionFallsBack(f: Family, role: Role, user: int, v: string)
    requires HasGetter(f) && f != ContentServer && (user != 0 || f == Utils)
    requires v !in Versions(f)
    ensures Getter(f, Some(role), user, v) == Some(Adapter(f, Fallback(f), InstanceFor(f, role)))
    ensures Getter(f, Some(role), user, v).value.shim == Latest
  {
  }

  /** On a SERVER pipe a role-split family serves the game server's copy, on any other pipe the client's. */
  lemma RoleSelectsCopy(f: Family, role: Role, user: int, v: string)
    requires HasGetter(f) && RoleSplit(f) && Getter(f, Some(role), user, v).Some?
    ensures Getter(f, Some(role), user, v).value.instance == (if role == ServerRole then ServerCopy else ClientCopy)
  {
  }

  /** The families `GetISteamGenericInterface` serves itself instead of calling a getter. */
  predicate Inline(f: Family)
  {
    f in {NetworkingSocketsSerialized, NetworkingSockets, NetworkingMessages, NetworkingUtils,
          GameCoordinator, TV}
  }

  /**
   * `GetISteamGenericInterface`: null on an unregistered pipe; on a pipe that
   * is not SERVER, null for a zero user unless the token starts with
   * "SteamNetworkingUtils" or "SteamUtils"; then the family of the first
   * matching prefix, served inline or by its getter; null for no match.
   */
  function GenericInterface(role: Option<Role>, user: int, v: string): (r: Option<Adapter>)
    ensures r.Some? ==> role.Some? && GenericFamily(v) == Some(r.value.family)
    ensures r.Some? ==> r.value.shim == ResolveShim(r.value.family, v)
  {
    if role.None? then None
    else if role.value != ServerRole && !StartsWith(v, "SteamNetworkingUtils")
      && !StartsWith(v, "SteamUtils") && user == 0 then None
    else
      match GenericFamily(v)
      case None => None
      case Some(f) =>
        if Inline(f) then Some(Adapter(f, ResolveShim(f, v), InstanceFor(f, role.value)))
        else Getter(f, role, user, v)
  }

  /** A token that matches no prefix yields null, on every pipe and for every user. */
  lemma GenericUnknownFamilyIsNull(role: Option<Role>, user: int, v: string)
    requires forall p :: p in GenericPrefixes ==> !StartsWith(v, p)
    ensures GenericInterface(role, user, v).None?
  {
  }

  /** On a pipe that is not SERVER, a zero user gets null unless the token starts with SteamNetworkingUtils or SteamUtils. */
  lemma GenericClientNeedsUser(role: Role, v: string)
    requires role != ServerRole
    requires !StartsWith(v, "SteamNetworkingUtils") && !StartsWith(v, "SteamUtils")
    ensures GenericInterface(Some(role), 0, v).None?
  {
  }

  /** The two exempt prefixes are served on any registered pipe, also for a zero user. */
  lemma GenericUtilsWithoutUser(role: Role, v: string)
    requires StartsWith(v, "SteamUtils") || StartsWith(v, "SteamNetworkingUtils")
    ensures GenericInterface(Some(role), 0, v).Some?
  {
    UtilsPrefixSelectsUtils(v);
    NetworkingPrefixesLongestFirst(v);
  }

  /** A family with a getter of its own is served exactly as its getter serves it. */
  lemma GenericDelegates(role: Role, user: int, v: string)
    requires GenericFamily(v).Some? && HasGetter(GenericFamily(v).value)
    requires role == ServerRole || user != 0
    ensures GenericInterface(Some(role), user, v) == Getter(GenericFamily(v).value, Some(role), user, v)
  {
  }

  /**
   * On a SERVER pipe the inline families are served even for a zero user: the
   * generic resolver checks the user only on other pipes and these families
   * have no getter that would check it again.
   */
  lemma GenericServerInlineIgnoresUser(v: string)
    requires GenericFamily(v).Some? && Inline(GenericFamily(v).value)
    ensures GenericInterface(Some(ServerRole), 0, v).Some?
    ensures GenericInterface(Some(ServerRole), 0, v).value.instance
      == if GenericFamily(v).value in {NetworkingUtils, TV} then Shared else ServerCopy
  {
  }

  /** Everything a `SteamClient` holds that its methods change, as one value. */
  datatype ClientView = ClientView(
    pipes: map<int, Role>, pipeCounter: int,
    userLoggedIn: bool, serverInit: bool, serverInited: bool, gameserverIpv6: bool,
    keepaliveJoinable: bool, cbRunActive: bool, lastCbRun: nat, trace: seq<Entry>)

  /** The state of a newly constructed client whose counter starts at `firstPipe`. */
  function InitialView(firstPipe: int): ClientView
  {
    ClientView(map[], firstPipe, false, false, false, false, false, false, 0, [])
  }

  /** The entries `ConnectToGlobalUser` records on a registered pipe. */
  function ConnectEntries(cbRunActive: bool, overlayDisabled: bool, keepaliveJoinable: bool): seq<Entry>
  {
    [Entry(AddListenId, cbRunActive)]
    + (if overlayDisabled then [] else [Entry(SetupOverlay, cbRunActive)])
    + (if keepaliveJoinable then [] else [Entry(SpawnKeepalive, cbRunActive)])
  }

  /** The entries `BShutdownIfAllPipesClosed` records once every pipe is released. */
  function CloseEntries(cbRunActive: bool, overlayDisabled: bool): seq<Entry>
  {
    [Entry(ControllerShutdown, cbRunActive)]
    + (if overlayDisabled then [] else [Entry(UnSetupOverlay, cbRunActive)])
  }

  /** The flag `background_thread` polls; one static shared by every client object. */
  class KeepaliveSignal {
    var kill: bool

    constructor ()
      ensures !kill
    {
      kill := false;
    }
  }

  class SteamClient {
    /** `kill_background_thread`. */
    const signal: KeepaliveSignal
    /** `CLIENT_HSTEAMUSER` and `SERVER_HSTEAMUSER`. */
    const clientUser: int
    const serverUser: int
    /** The first handle `steam_pipe_counter` hands out. */
    const firstPipe: int
    /** `settings_client->disable_overlay`. */
    const overlayDisabled: bool

    var pipes: map<int, Role>
    var pipeCounter: int
    var userLoggedIn: bool
    var serverInit: bool
    var serverInited: bool
    var gameserverIpv6: bool
    /** `background_keepalive.joinable()`. */
    var keepaliveJoinable: bool
    var cbRunActive: bool
    var lastCbRun: nat
    var trace: seq<Entry>

    /** Every registered handle was handed out by the counter, which starts above 0. */
    ghost predicate Valid()
      reads this`pipes, this`pipeCounter
    {
      0 < firstPipe <= pipeCounter
      && (forall p :: p in pipes ==> firstPipe <= p < pipeCounter)
      && clientUser != 0 && serverUser != 0
    }

    /** The client was constructed with these arguments. */
    predicate Built(signal: KeepaliveSignal, clientUser: int, serverUser: int, firstPipe: int, overlayDisabled: bool)
    {
      this.signal == signal && this.clientUser == clientUser && this.serverUser == serverUser
      && this.firstPipe == firstPipe && this.overlayDisabled == overlayDisabled
    }

    /** The changing part of the client. */
    function View(): ClientView
      reads this
    {
      ClientView(pipes, pipeCounter, userLoggedIn, serverInit, serverInited, gameserverIpv6,
                 keepaliveJoinable, cbRunActive, lastCbRun, trace)
    }

    /** The role a pipe is registered with, None when it is not registered. */
    function RoleOf(pipe: int): (r: Option<Role>)
      reads this`pipes
      ensures r.Some? <==> pipe in pipes
      ensures r.Some? ==> r.value == pipes[pipe]
    {
      if pipe in pipes then Some(pipes[pipe]) else None
    }

    constructor (signal: KeepaliveSignal, clientUser: int, serverUser: int, firstPipe: int, overlayDisabled: bool)
      requires clientUser != 0 && serverUser != 0 && 0 < firstPipe
      ensures Valid()
      ensures Built(signal, clientUser, serverUser, firstPipe, overlayDisabled)
      ensures View() == InitialView(firstPipe)
    {
      this.signal := signal;
      this.clientUser := clientUser;
      this.serverUser := serverUser;
      this.firstPipe := firstPipe;
      this.overlayDisabled := overlayDisabled;
      pipes := map[];
      pipeCounter := firstPipe;
      userLoggedIn := false;
      serverInit := false;
      serverInited := false;
      gameserverIpv6 := false;
      keepaliveJoinable := false;
      cbRunActive := false;
      lastCbRun := 0;
      trace := [];
    }

    /** Records one call into a subsystem outside the model. */
    method Log(e: Event)
      modifies this`trace
      ensures trace == old(trace) + [Entry(e, cbRunActive)]
      ensures View() == old(View()).(trace := old(trace) + [Entry(e, cbRunActive)])
    {
      trace := trace + [Entry(e, cbRunActive)];
    }

    /** `CreateSteamPipe`: the counter's value becomes a new NO_USER pipe; there is no exhaustion check. */
    method CreateSteamPipe() returns (pipe: int)
      requires Valid()
      modifies this`pipes, this`pipeCounter
      ensures Valid()
      ensures pipe == old(pipeCounter) && pipeCounter == pipe + 1
      ensures pipe !in old(pipes) && pipes == old(pipes)[pipe := NoUser]
      ensures View() == old(View()).(pipes := old(pipes)[pipe := NoUser], pipeCounter := pipe + 1)
    {
      pipe := pipeCounter;
      pipeCounter := pipeCounter + 1;
      pipes := pipes[pipe := NoUser];
    }

    /** `BReleaseSteamPipe`: true exactly when the pipe was registered; afterwards it is not. */
    method BReleaseSteamPipe(pipe: int) returns (released: bool)
      requires Valid()
      modifies this`pipes
      ensures Valid()
      ensures released == (pipe in old(pipes))
      ensures pipes == old(pipes) - {pipe}
      ensures View() == old(View()).(pipes := old(pipes) - {pipe})
    {
      if pipe in pipes {
        pipes := pipes - {pipe};
        released := true;
      } else {
        released := false;
      }
    }

    /**
     * `ConnectToGlobalUser`: 0 and no change on an unregistered pipe; otherwise
     * logs the user in, sets up the overlay unless it is disabled, starts the
     * keepalive unless it is already joinable, binds the pipe as CLIENT and
     * returns the client user.
     */
    method ConnectToGlobalUser(pipe: int) returns (user: int)
      requires Valid()
      modifies this`pipes, this`userLoggedIn, this`keepaliveJoinable, this`trace
      ensures Valid()
      ensures pipe !in old(pipes) ==> user == 0 && unchanged(this)
      ensures pipe in old(pipes) ==>
        user == clientUser && userLoggedIn && keepaliveJoinable
        && pipes == old(pipes)[pipe := ClientRole]
        && trace == old(trace) + ConnectEntries(cbRunActive, overlayDisabled, old(keepaliveJoinable))
        && View() == old(View()).(pipes := old(pipes)[pipe := ClientRole], userLoggedIn := true,
                                  keepaliveJoinable := true, trace := trace)
    {
      if pipe !in pipes {
        return 0;
      }
      UserLogIn();
      if !overlayDisabled {
        Log(SetupOverlay);
      }
      StartKeepalive();
      pipes := pipes[pipe := ClientRole];
      user := clientUser;
    }

    /** `userLogIn`: the local id is announced to the network and the user is logged in. */
    method UserLogIn()
      modifies this`userLoggedIn, this`trace
      ensures userLoggedIn && trace == old(trace) + [Entry(AddListenId, cbRunActive)]
      ensures View() == old(View()).(userLoggedIn := true, trace := trace)
    {
      Log(AddListenId);
      userLoggedIn := true;
    }

    /** The keepalive thread is spawned unless one is already joinable. */
    method StartKeepalive()
      modifies this`keepaliveJoinable, this`trace
      ensures keepaliveJoinable
      ensures trace == old(trace) + (if old(keepaliveJoinable) then [] else [Entry(SpawnKeepalive, cbRunActive)])
      ensures View() == old(View()).(keepaliveJoinable := true, trace := trace)
    {
      if !keepaliveJoinable {
        Log(SpawnKeepalive);
        keepaliveJoinable := true;
      }
    }

    /**
     * `CreateLocalUser`: marks the server initialised, registers a new SERVER
     * pipe, writes its handle out only when the caller passed a place for it,
     * and returns the server user.
     */
    method CreateLocalUser(wantsPipe: bool) returns (user: int, outPipe: Option<int>)
      requires Valid()
      modifies this`pipes, this`pipeCounter, this`serverInit, this`serverInited
      ensures Valid()
      ensures user == serverUser && serverInit && serverInited
      ensures pipeCounter == old(pipeCounter) + 1
      ensures old(pipeCounter) !in old(pipes) && pipes == old(pipes)[old(pipeCounter) := ServerRole]
      ensures outPipe == if wantsPipe then Some(old(pipeCounter)) else None
      ensures View() == old(View()).(pipes := old(pipes)[old(pipeCounter) := ServerRole],
                                     pipeCounter := old(pipeCounter) + 1, serverInit := true, serverInited := true)
    {
      serverInit := true;
      var pipe := CreateSteamPipe();
      outPipe := if wantsPipe then Some(pipe) else None;
      pipes := pipes[pipe := ServerRole];
      serverInited := true;
      user := serverUser;
    }

    /** `clientShutdown`: the user is logged out; nothing else changes. */
    method ClientShutdown()
      modifies this`userLoggedIn
      ensures View() == old(View()).(userLoggedIn := false)
    {
      userLoggedIn := false;
    }

    /** `serverShutdown`: the server is no longer initialised; `steamclient_server_inited` stays. */
    method ServerShutdown()
      modifies this`serverInit
      ensures View() == old(View()).(serverInit := false)
    {
      serverInit := false;
    }

    /** `ReleaseUser`: clears `steamclient_server_inited` only for the server user on a registered pipe. */
    method ReleaseUser(pipe: int, user: int)
      modifies this`serverInited
      ensures serverInited == (old(serverInited) && !(user == serverUser && pipe in pipes))
    {
      if user == serverUser && pipe in pipes {
        serverInited := false;
      }
    }

    /**
     * `BShutdownIfAllPipesClosed`: false and no change while any pipe is
     * registered; otherwise signals and joins a joinable keepalive, shuts the
     * controller down and tears the overlay down unless it is disabled.
     */
    method BShutdownIfAllPipesClosed() returns (closed: bool)
      requires Valid()
      modifies this`keepaliveJoinable, this`trace, signal
      ensures Valid()
      ensures closed == (|pipes| == 0)
      ensures signal.kill == (old(signal.kill) || (closed && old(keepaliveJoinable)))
      ensures View() == if closed then
          old(View()).(keepaliveJoinable := false, trace := old(trace) + CloseEntries(cbRunActive, overlayDisabled))
        else old(View())
    {
      if |pipes| != 0 {
        return false;
      }
      var joinable := keepaliveJoinable;
      if joinable {
        signal.kill := true;
      }
      Log(ControllerShutdown);
      if !overlayDisabled {
        Log(UnSetupOverlay);
      }
      if joinable {
        keepaliveJoinable := false;
      }
      closed := true;
    }

    /**
     * `GetISteamGameServer`: the getter result, and the one-way ipv6 latch is
     * raised when the checks pass and the token is 013, 014, the current one
     * or unknown.
     */
    method GetGameServer(user: int, pipe: int, v: string) returns (r: Option<Adapter>)
      modifies this`gameserverIpv6
      ensures r == Getter(GameServer, RoleOf(pipe), user, v)
      ensures gameserverIpv6 == (old(gameserverIpv6) || (r.Some? && RaisesGameServerIpv6(v)))
    {
      r := Getter(GameServer, RoleOf(pipe), user, v);
      if r.Some? && RaisesGameServerIpv6(v) {
        gameserverIpv6 := true;
      }
    }

    /** `GetISteamGenericInterface`: the generic result; the latch moves only when the game server getter is reached. */
    method GetGenericInterface(user: int, pipe: int, v: string) returns (r: Option<Adapter>)
      modifies this`gameserverIpv6
      ensures r == GenericInterface(RoleOf(pipe), user, v)
      ensures gameserverIpv6
        == (old(gameserverIpv6) || (r.Some? && r.value.family == GameServer && RaisesGameServerIpv6(v)))
    {
      r := GenericInterface(RoleOf(pipe), user, v);
      if r.Some? && r.value.family == GameServer && RaisesGameServerIpv6(v) {
        gameserverIpv6 := true;
      }
    }

    /** `RegisterCallback`: adds to the game server's registry or the client's, never both. */
    method RegisterCallback(cb: Callback, iCallback: int)
      modifies this`trace
      ensures trace == old(trace) + [Entry(AddCallback(SideOf(cb.isServer), iCallback, cb.handle), cbRunActive)]
    {
      Log(AddCallback(SideOf(cb.isServer), iCallback, cb.handle));
    }

    /** `UnregisterCallback`: removes, under the id the callback reports, from one registry. */
    method UnregisterCallback(cb: Callback)
      modifies this`trace
      ensures trace == old(trace) + [Entry(RemoveCallback(SideOf(cb.isServer), cb.iCallback, cb.handle), cbRunActive)]
    {
      Log(RemoveCallback(SideOf(cb.isServer), cb.iCallback, cb.handle));
    }

    /** `RegisterCallResult`: adds to the client's call-result registry, then to the server's. */
    method RegisterCallResult(cb: Callback, call: nat)
      modifies this`trace
      ensures trace == old(trace) + [Entry(AddCallResult(ClientSide, call, cb.handle), cbRunActive),
                                     Entry(AddCallResult(ServerSide, call, cb.handle), cbRunActive)]
    {
      Log(AddCallResult(ClientSide, call, cb.handle));
      Log(AddCallResult(ServerSide, call, cb.handle));
    }

    /** `UnregisterCallResult`: removes from both call-result registries. */
    method UnregisterCallResult(cb: Callback, call: nat)
      modifies this`trace
      ensures trace == old(trace) + [Entry(RemoveCallResult(ClientSide, call, cb.handle), cbRunActive),
                                     Entry(RemoveCallResult(ServerSide, call, cb.handle), cbRunActive)]
    {
      Log(RemoveCallResult(ClientSide, call, cb.handle));
      Log(RemoveCallResult(ServerSide, call, cb.handle));
    }

    /**
     * `RunCallbacks`: the steps of `RunOrder`, each recorded with the value
     * `cb_run_active` has when it is made; at exit the flag is clear and `last_cb_run` is
     * the clock reading `now`.
     */
    method RunCallbacks(runClient: bool, runServer: bool, now: nat)
      modifies this`cbRunActive, this`lastCbRun, this`trace
      ensures View() == old(View()).(cbRunActive := false, lastCbRun := now,
                                     trace := old(trace) + RunOrder(runClient, runServer))
    {
      cbRunActive := true;
      var pass := [Entry(NetworkRun, cbRunActive)];
      pass := pass + [Entry(MatchmakingServersRun, cbRunActive)];
      pass := pass + [Entry(RunEveryRunCb, cbRunActive)];
      pass := pass + [Entry(GameServerRun, cbRunActive)];
      if runClient {
        pass := pass + [Entry(CallResultsRun(ClientSide), cbRunActive)];
      }
      if runServer {
        pass := pass + [Entry(CallResultsRun(ServerSide), cbRunActive)];
      }
      pass := pass + [Entry(CallbacksRun(ServerSide), cbRunActive)];
      pass := pass + [Entry(CallbacksRun(ClientSide), cbRunActive)];
      trace := trace + pass;
      lastCbRun := now;
      cbRunActive := false;
    }

    /**
     * One wake-up of the keepalive loop of `background_thread` at clock `now`:
     * while the thread is alive and a pass is due, it records the time and
     * runs networking and the every-pass hooks only.
     */
    method KeepaliveTick(now: nat) returns (fired: bool)
      modifies this`lastCbRun, this`trace
      ensures fired == (keepaliveJoinable && !signal.kill && TickDue(cbRunActive, old(lastCbRun), now))
      ensures fired ==>
        lastCbRun == now && trace == old(trace) + [Entry(NetworkRun, false), Entry(RunEveryRunCb, false)]
      ensures !fired ==> unchanged(this)
    {
      fired := keepaliveJoinable && !signal.kill && TickDue(cbRunActive, lastCbRun, now);
      if fired {
        lastCbRun := now;
        Log(NetworkRun);
        Log(RunEveryRunCb);
      }
    }
  }
}
