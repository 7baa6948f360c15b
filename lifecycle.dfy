/**
 * The exported entry points of dll/dll.cpp: the singleton client, the
 * generation counter shared with `SteamInternal_ContextInit`, the two role
 * pipes, the 128-byte "old interface" version buffers and the instances
 * cached from them, the client-interface resolver with its ipv6 flag, and
 * the two manual-dispatch queues.
 */
module Lifecycle {
  import opened InterfaceVersions
  import opened Registry

  // ------------------------------------------------------------------
  // The generation counter
  // ------------------------------------------------------------------

  /** The build's pointer width, which is the width of `uintp`. */
  datatype PointerWidth = Bits32 | Bits64

  /** `global_counter` is a `uintp`: it wraps modulo 2^32 on a 32-bit build and 2^64 on a 64-bit one. */
  function CounterModulus(w: PointerWidth): int
  {
    match w
    case Bits32 => 0x1_0000_0000
    case Bits64 => 0x1_0000_0000_0000_0000
  }

  predicate IsCounter(w: PointerWidth, n: int)
  {
    0 <= n < CounterModulus(w)
  }

  function Inc(w: PointerWidth, n: int): (r: int)
    requires IsCounter(w, n)
    ensures IsCounter(w, r)
    ensures r == if n == CounterModulus(w) - 1 then 0 else n + 1
  {
    (n + 1) % CounterModulus(w)
  }

  function Dec(w: PointerWidth, n: int): (r: int)
    requires IsCounter(w, n)
    ensures IsCounter(w, r)
    ensures r == if n == 0 then CounterModulus(w) - 1 else n - 1
  {
    (n - 1) % CounterModulus(w)
  }

  /** A decrement undoes an increment, also across the wrap. */
  lemma DecUndoesInc(w: PointerWidth, n: int)
    requires IsCounter(w, n)
    ensures Dec(w, Inc(w, n)) == n && Inc(w, Dec(w, n)) == n
  {
  }

  /** A shutdown without a matching init leaves the counter at its largest value, not at 0. */
  lemma UnmatchedShutdownWraps(w: PointerWidth)
    ensures Dec(w, 0) == CounterModulus(w) - 1 && Dec(w, 0) != 0
    ensures Dec(Bits32, 0) == 0xFFFF_FFFF && Dec(Bits64, 0) == 0xFFFF_FFFF_FFFF_FFFF
  {
  }

  // ------------------------------------------------------------------
  // The 128-byte version buffers
  // ------------------------------------------------------------------

  /** `sizeof` of every `old_*` buffer. */
  const BufferSize: nat := 128

  const Nul: char := '\0'

  /** The families with an `old_*` buffer, one per `SET_OLD_ITF` line. */
  const BufferFamilies: set<Family> := {
    Client, GameServerStats, GameServer, MatchMakingServers, MatchMaking, User, Friends, Utils,
    UserStats, Apps, Networking, RemoteStorage, Screenshots, HTTP, UnifiedMessages, Controller,
    UGC, AppList, Music, MusicRemote, HTMLSurface, Inventory, Video, MasterServerUpdater}

  function Zeros(n: nat): (r: seq<char>)
    ensures |r| == n && forall i :: 0 <= i < n ==> r[i] == Nul
  {
    seq(n, _ => Nul)
  }

  /** A `char[128]` initialised from a string literal shorter than the buffer: the rest is zero. */
  function Padded(s: string): (r: seq<char>)
    requires |s| < BufferSize
    ensures |r| == BufferSize && r[..|s|] == s
    ensures forall i :: |s| <= i < BufferSize ==> r[i] == Nul
  {
    s + Zeros(BufferSize - |s|)
  }

  /**
   * One `SET_OLD_ITF` write: the buffer is zeroed, then at most 127
   * characters of the setting are copied, so the last byte stays zero.
   */
  function Overwritten(s: string): (r: seq<char>)
    ensures |r| == BufferSize && r[BufferSize - 1] == Nul
    ensures forall i :: 0 <= i < |s| && i < BufferSize - 1 ==> r[i] == s[i]
    ensures forall i :: |s| <= i < BufferSize ==> r[i] == Nul
  {
    Padded(if |s| < BufferSize then s else s[..BufferSize - 1])
  }

  /** The C string a buffer holds: the characters before its first zero. */
  function CString(b: seq<char>): (r: string)
    ensures r <= b && Nul !in r
    ensures |r| < |b| ==> b[|r|] == Nul
  {
    if b == [] then []
    else if b[0] == Nul then []
    else [b[0]] + CString(b[1..])
  }

  /** Reading back a string that is followed by a zero gives the string. */
  lemma {:induction false} CStringOfTerminated(s: string, t: seq<char>)
    requires Nul !in s && t != [] && t[0] == Nul
    ensures CString(s + t) == s
    decreases |s|
  {
    if s == [] {
      assert s + t == t;
    } else {
      assert (s + t)[0] == s[0];
      assert (s + t)[1..] == s[1..] + t;
      CStringOfTerminated(s[1..], t);
    }
  }

  /**
   * An override without zeros reads back as its first 127 characters: the
   * copy is truncated, never unterminated.
   */
  lemma OverwrittenReadsBack(s: string)
    requires Nul !in s
    ensures CString(Overwritten(s)) == if |s| < BufferSize then s else s[..BufferSize - 1]
  {
    var kept := if |s| < BufferSize then s else s[..BufferSize - 1];
    assert Nul !in kept;
    assert Overwritten(s) == kept + Zeros(BufferSize - |kept|);
    CStringOfTerminated(kept, Zeros(BufferSize - |kept|));
  }

  /** A default version without zeros reads back unchanged. */
  lemma PaddedReadsBack(s: string)
    requires |s| < BufferSize && Nul !in s
    ensures CString(Padded(s)) == s
  {
    CStringOfTerminated(s, Zeros(BufferSize - |s|));
  }

  /** A version macro: it fits its 128-byte buffer with room for the terminator. */
  type Macro = s: string | |s| < BufferSize

  /** `SET_OLD_ITF`: a setting replaces the buffer only when it is present and non-empty. */
  function ApplyOverride(settings: map<Family, string>, f: Family, buffer: seq<char>): (r: seq<char>)
    ensures f in settings && settings[f] != "" ==> r == Overwritten(settings[f])
    ensures !(f in settings && settings[f] != "") ==> r == buffer
  {
    if f in settings && settings[f] != "" then Overwritten(settings[f]) else buffer
  }

  /** The buffers as the program image initialises them from the version macros. */
  function InitialBuffers(defaults: Family -> Macro): (r: map<Family, seq<char>>)
    ensures r.Keys == BufferFamilies
    ensures forall f | f in r :: r[f] == Padded(defaults(f))
  {
    map f | f in BufferFamilies :: Padded(defaults(f))
  }

  /** One buffer after `load_old_steam_interfaces`: its macro, overwritten by a non-empty setting. */
  function LoadedBuffer(defaults: Family -> Macro, settings: map<Family, string>, f: Family): seq<char>
  {
    ApplyOverride(settings, f, Padded(defaults(f)))
  }

  /** The buffers after `load_old_steam_interfaces` has applied every setting. */
  function LoadedBuffers(defaults: Family -> Macro, settings: map<Family, string>): (r: map<Family, seq<char>>)
    ensures r.Keys == BufferFamilies
    ensures forall f | f in r :: r[f] == ApplyOverride(settings, f, InitialBuffers(defaults)[f])
  {
    map f | f in BufferFamilies :: LoadedBuffer(defaults, settings, f)
  }

  /** Loading is idempotent: applying the settings a second time changes nothing. */
  lemma LoadingTwiceIsLoadingOnce(defaults: Family -> Macro, settings: map<Family, string>)
    ensures (map f | f in BufferFamilies :: ApplyOverride(settings, f, LoadedBuffers(defaults, settings)[f]))
         == LoadedBuffers(defaults, settings)
  {
  }

  /** A buffer without a non-empty setting keeps its macro's version; one with a setting reads back the setting, cut at 127 characters. */
  lemma LoadedVersions(defaults: Family -> Macro, settings: map<Family, string>, f: Family)
    requires Nul !in defaults(f)
    requires f in settings ==> Nul !in settings[f]
    ensures var v := CString(LoadedBuffer(defaults, settings, f));
      if f in settings && settings[f] != "" then
        v == (if |settings[f]| < BufferSize then settings[f] else settings[f][..BufferSize - 1])
      else v == defaults(f)
  {
    if f in settings && settings[f] != "" {
      OverwrittenReadsBack(settings[f]);
    } else {
      PaddedReadsBack(defaults(f));
    }
  }

  // ------------------------------------------------------------------
  // The cached old-style interfaces
  // ------------------------------------------------------------------

  /** One `old_*_instance` cache: 21 on the client side and 9 on the game server side. */
  datatype Slot = ClientSlot(family: Family) | ServerSlot(family: Family)

  const ClientSlotFamilies: set<Family> := {
    User, Friends, Utils, MatchMaking, UserStats, Apps, MatchMakingServers, Networking,
    RemoteStorage, Screenshots, HTTP, Controller, UGC, AppList, Music, MusicRemote,
    HTMLSurface, Inventory, Video, ParentalSettings, UnifiedMessages}

  const ServerSlotFamilies: set<Family> := {
    GameServer, Utils, Networking, GameServerStats, HTTP, Inventory, UGC, Apps, MasterServerUpdater}

  /**
   * A cache some accessor fills: its family has a getter and, except for
   * `SteamParentalSettings`, which passes "", a version buffer.
   */
  predicate IsSlot(s: Slot)
  {
    (if s.ClientSlot? then s.family in ClientSlotFamilies else s.family in ServerSlotFamilies)
    && HasGetter(s.family)
    && (s == ClientSlot(ParentalSettings) || s.family in BufferFamilies)
  }

  /** Every one of the 30 accessors names a cache in that sense. */
  lemma AccessorsAreSlots(f: Family)
    ensures f in ClientSlotFamilies ==> IsSlot(ClientSlot(f))
    ensures f in ServerSlotFamilies ==> IsSlot(ServerSlot(f))
  {
  }

  /** The caches `SteamAPI_Shutdown` keeps: the game server side. */
  function ServerCaches(caches: map<Slot, Adapter>): (r: map<Slot, Adapter>)
    ensures forall s :: s in r <==> s in caches && s.ServerSlot?
    ensures forall s | s in r :: r[s] == caches[s]
  {
    map s | s in caches && s.ServerSlot? :: caches[s]
  }

  /** The caches `SteamGameServer_Shutdown` keeps: the client side. */
  function ClientCaches(caches: map<Slot, Adapter>): (r: map<Slot, Adapter>)
    ensures forall s :: s in r <==> s in caches && s.ClientSlot?
    ensures forall s | s in r :: r[s] == caches[s]
  {
    map s | s in caches && s.ClientSlot? :: caches[s]
  }

  /** The two shutdowns clear disjoint halves: doing both, in either order, clears every cache. */
  lemma ShutdownsClearDisjointCaches(caches: map<Slot, Adapter>)
    ensures ClientCaches(ServerCaches(caches)) == map[]
    ensures ServerCaches(ClientCaches(caches)) == map[]
    ensures ServerCaches(caches).Keys !! ClientCaches(caches).Keys
    ensures ServerCaches(caches).Keys + ClientCaches(caches).Keys == caches.Keys
  {
    assert ClientCaches(ServerCaches(caches)).Keys == {};
    assert ServerCaches(ClientCaches(caches)).Keys == {};
  }

  // ------------------------------------------------------------------
  // Client states after the registry calls dll/dll.cpp makes
  // ------------------------------------------------------------------

  /** After `CreateSteamPipe` and `ConnectToGlobalUser` on the new pipe. */
  function Connected(v: ClientView, overlayDisabled: bool): ClientView
  {
    v.(pipes := v.pipes[v.pipeCounter := ClientRole], pipeCounter := v.pipeCounter + 1,
       userLoggedIn := true, keepaliveJoinable := true,
       trace := v.trace + ConnectEntries(v.cbRunActive, overlayDisabled, v.keepaliveJoinable))
  }

  /** After `CreateLocalUser`. */
  function LocalUserCreated(v: ClientView): ClientView
  {
    v.(pipes := v.pipes[v.pipeCounter := ServerRole], pipeCounter := v.pipeCounter + 1,
       serverInit := true, serverInited := true)
  }

  /** After `BReleaseSteamPipe(pipe)` and `BShutdownIfAllPipesClosed`. */
  function ReleasedAndClosed(v: ClientView, pipe: int, overlayDisabled: bool): ClientView
  {
    var w := v.(pipes := v.pipes - {pipe});
    if |w.pipes| == 0 then
      w.(keepaliveJoinable := false, trace := w.trace + CloseEntries(w.cbRunActive, overlayDisabled))
    else w
  }

  /** `kill_background_thread` after the same two calls. */
  function KillAfterRelease(kill: bool, v: ClientView, pipe: int): bool
  {
    kill || (|v.pipes - {pipe}| == 0 && v.keepaliveJoinable)
  }

  /** After one call into a subsystem outside the model. */
  function Logged(v: ClientView, e: Event): ClientView
  {
    v.(trace := v.trace + [Entry(e, v.cbRunActive)])
  }

  /** After a `RunCallbacks` pass at clock `now`. */
  function Ran(v: ClientView, runClient: bool, runServer: bool, now: nat): ClientView
  {
    v.(cbRunActive := false, lastCbRun := now, trace := v.trace + RunOrder(runClient, runServer))
  }

  /** A client shutdown away from other pipes releases everything: the keepalive is stopped and the overlay torn down. */
  lemma LastShutdownStopsKeepalive(v: ClientView, pipe: int, overlayDisabled: bool)
    requires v.pipes.Keys <= {pipe}
    ensures !ReleasedAndClosed(v, pipe, overlayDisabled).keepaliveJoinable
    ensures KillAfterRelease(false, v, pipe) == v.keepaliveJoinable
    ensures ReleasedAndClosed(v, pipe, overlayDisabled).trace
         == v.trace + CloseEntries(v.cbRunActive, overlayDisabled)
  {
    assert (v.pipes - {pipe}).Keys == {};
  }

  /** While another pipe stays open, releasing one changes nothing but the map. */
  lemma OtherPipeKeepsClientUp(v: ClientView, pipe: int, other: int, overlayDisabled: bool)
    requires other in v.pipes && other != pipe
    ensures ReleasedAndClosed(v, pipe, overlayDisabled) == v.(pipes := v.pipes - {pipe})
    ensures KillAfterRelease(false, v, pipe) == false
  {
    assert other in (v.pipes - {pipe});
  }

  /** Connecting and then shutting down on the same pipe leaves the other pipes as they were. */
  lemma InitThenShutdownRestoresPipes(v: ClientView, overlayDisabled: bool)
    requires v.pipeCounter !in v.pipes
    ensures ReleasedAndClosed(Connected(v, overlayDisabled).(userLoggedIn := false), v.pipeCounter, overlayDisabled).pipes
         == v.pipes
  {
    assert Connected(v, overlayDisabled).pipes - {v.pipeCounter} == v.pipes;
  }

  // ------------------------------------------------------------------
  // The client-interface resolver
  // ------------------------------------------------------------------

  /** What `create_client_interface` hands out: the client adapter for a "SteamClient" token. */
  function ClientInterface(v: string): (r: Option<Adapter>)
    ensures r.Some? <==> StartsWith(v, "SteamClient")
    ensures r.Some? ==> r.value.family == Client && r.value.instance == Shared
  {
    match ClientShim(v)
    case None => None
    case Some(shim) => Some(Adapter(Client, shim, Shared))
  }

  // ------------------------------------------------------------------
  // The manual-dispatch queues
  // ------------------------------------------------------------------

  /** `cb_data`: a callback id and its payload. */
  datatype CbData = CbData(cbId: int, result: seq<bv8>)

  /** The fields `GetNextCallback` fills in a `CallbackMsg_t`. */
  datatype CallbackMsg = CallbackMsg(user: int, iCallback: int, param: seq<bv8>, size: nat)

  /** `client_cb` and `server_cb`. */
  datatype Queues = Queues(client: seq<CbData>, server: seq<CbData>)

  /** The queue a role reads from; NO_USER pipes have none. */
  function QueueOf(q: Queues, role: Role): (r: Option<seq<CbData>>)
    ensures r.Some? <==> role != NoUser
    ensures role == ServerRole ==> r == Some(q.server)
    ensures role == ClientRole ==> r == Some(q.client)
  {
    match role
    case ServerRole => Some(q.server)
    case ClientRole => Some(q.client)
    case NoUser => None
  }

  /** The purge at the top of `GetNextCallback`: the server queue is emptied while the server is not initialised. */
  function Purged(q: Queues, serverInited: bool): (r: Queues)
    ensures r.client == q.client
    ensures r.server == if serverInited then q.server else []
  {
    if serverInited then q else q.(server := [])
  }

  /** The `CallbackMsg_t` a queued event becomes when it is fetched for `user`. */
  function AsMessage(e: CbData, user: int): CallbackMsg
  {
    CallbackMsg(user, e.cbId, e.result, |e.result|)
  }

  /** The user a role's messages carry: SERVER_HSTEAMUSER or CLIENT_HSTEAMUSER. */
  function UserOf(role: Role, clientUser: int, serverUser: int): int
  {
    if role == ServerRole then serverUser else clientUser
  }

  /**
   * The message `GetNextCallback` fills in, None where it returns false: an
   * unregistered pipe, a NO_USER pipe, an empty queue or a null message.
   */
  function NextMessage(role: Option<Role>, q: Queues, hasMsg: bool, clientUser: int, serverUser: int): (r: Option<CallbackMsg>)
    ensures r.Some? <==> role.Some? && role.value != NoUser && QueueOf(q, role.value).value != [] && hasMsg
    ensures r.Some? ==>
      var front := QueueOf(q, role.value).value[0];
      r.value == CallbackMsg(UserOf(role.value, clientUser, serverUser), front.cbId, front.result, |front.result|)
  {
    if role.None? then None
    else match QueueOf(q, role.value)
      case None => None
      case Some(queue) =>
        if queue == [] || !hasMsg then None
        else Some(AsMessage(queue[0], UserOf(role.value, clientUser, serverUser)))
  }

  /** `FreeLastCallback`: the role's queue loses its front; anything else is a no-op. */
  function Freed(role: Option<Role>, q: Queues): (r: Queues)
    ensures role == Some(ServerRole) && q.server != [] ==> r == q.(server := q.server[1..])
    ensures role == Some(ClientRole) && q.client != [] ==> r == q.(client := q.client[1..])
    ensures role.None? || role == Some(NoUser) ==> r == q
    ensures role.Some? && role.value != NoUser && QueueOf(q, role.value).value == [] ==> r == q
  {
    match role
    case Some(ServerRole) => if q.server != [] then q.(server := q.server[1..]) else q
    case Some(ClientRole) => if q.client != [] then q.(client := q.client[1..]) else q
    case _ => q
  }

  /** Peeking does not consume: a second fetch with no free in between sees the same message. */
  lemma PeekIsStable(role: Option<Role>, q: Queues, serverInited: bool, hasMsg: bool, cu: int, su: int)
    ensures Purged(Purged(q, serverInited), serverInited) == Purged(q, serverInited)
    ensures NextMessage(role, Purged(Purged(q, serverInited), serverInited), hasMsg, cu, su)
         == NextMessage(role, Purged(q, serverInited), hasMsg, cu, su)
  {
  }

  /** The messages of a queue's events, front first: the reference order of delivery. */
  function AsMessages(queue: seq<CbData>, user: int): (r: seq<CallbackMsg>)
    ensures |r| == |queue|
    ensures forall i :: 0 <= i < |r| ==>
      r[i].user == user && r[i].iCallback == queue[i].cbId && r[i].param == queue[i].result
      && r[i].size == |queue[i].result|
  {
    seq(|queue|, i requires 0 <= i < |queue| => AsMessage(queue[i], user))
  }

  /**
   * What a manual-dispatch loop on a pipe of `role` receives: fetch the next
   * message into a non-null `CallbackMsg_t`, free it, and repeat until the
   * fetch fails.
   */
  function Delivered(role: Role, q: Queues, clientUser: int, serverUser: int): (r: seq<CallbackMsg>)
    ensures |r| == if role == NoUser then 0 else |QueueOf(q, role).value|
    ensures forall i :: 0 <= i < |r| ==> r[i].user == UserOf(role, clientUser, serverUser)
    decreases |q.client| + |q.server|
  {
    match NextMessage(Some(role), q, true, clientUser, serverUser)
    case None => []
    case Some(m) => [m] + Delivered(role, Freed(Some(role), q), clientUser, serverUser)
  }

  lemma AsMessagesFront(queue: seq<CbData>, user: int)
    requires queue != []
    ensures AsMessages(queue, user) == [AsMessage(queue[0], user)] + AsMessages(queue[1..], user)
  {
  }

  lemma AsMessagesPushed(queue: seq<CbData>, e: CbData, user: int)
    ensures AsMessages(queue + [e], user) == AsMessages(queue, user) + [AsMessage(e, user)]
  {
  }

  /**
   * Fetching and freeing until the fetch fails hands out exactly the events
   * of the pipe's own queue, front first; a NO_USER pipe gets nothing.
   */
  lemma {:induction false} DeliveredInQueueOrder(role: Role, q: Queues, clientUser: int, serverUser: int)
    ensures role == NoUser ==> Delivered(role, q, clientUser, serverUser) == []
    ensures role != NoUser ==>
      Delivered(role, q, clientUser, serverUser)
      == AsMessages(QueueOf(q, role).value, UserOf(role, clientUser, serverUser))
    decreases |q.client| + |q.server|
  {
    if role != NoUser && QueueOf(q, role).value != [] {
      var queue := QueueOf(q, role).value;
      var rest := Freed(Some(role), q);
      assert QueueOf(rest, role).value == queue[1..];
      DeliveredInQueueOrder(role, rest, clientUser, serverUser);
      AsMessagesFront(queue, UserOf(role, clientUser, serverUser));
    }
  }

  /**
   * `cb_add_queue_client` and `cb_add_queue_server` push at the back and
   * fetch-and-free pops the front: an event pushed behind others is
   * delivered after all of them, and the other role's delivery is untouched.
   */
  lemma PushedIsDeliveredLast(q: Queues, e: CbData, clientUser: int, serverUser: int)
    ensures Delivered(ClientRole, q.(client := q.client + [e]), clientUser, serverUser)
         == Delivered(ClientRole, q, clientUser, serverUser) + [AsMessage(e, clientUser)]
    ensures Delivered(ServerRole, q.(server := q.server + [e]), clientUser, serverUser)
         == Delivered(ServerRole, q, clientUser, serverUser) + [AsMessage(e, serverUser)]
    ensures Delivered(ServerRole, q.(client := q.client + [e]), clientUser, serverUser)
         == Delivered(ServerRole, q, clientUser, serverUser)
    ensures Delivered(ClientRole, q.(server := q.server + [e]), clientUser, serverUser)
         == Delivered(ClientRole, q, clientUser, serverUser)
  {
    var qc := q.(client := q.client + [e]);
    var qs := q.(server := q.server + [e]);
    DeliveredInQueueOrder(ClientRole, q, clientUser, serverUser);
    DeliveredInQueueOrder(ServerRole, q, clientUser, serverUser);
    DeliveredInQueueOrder(ClientRole, qc, clientUser, serverUser);
    DeliveredInQueueOrder(ServerRole, qc, clientUser, serverUser);
    DeliveredInQueueOrder(ClientRole, qs, clientUser, serverUser);
    DeliveredInQueueOrder(ServerRole, qs, clientUser, serverUser);
    AsMessagesPushed(q.client, e, clientUser);
    AsMessagesPushed(q.server, e, serverUser);
  }

  /** While the server is not initialised, the purge leaves a SERVER pipe nothing to deliver. */
  lemma {:induction false} PurgedServerDeliversNothing(q: Queues, clientUser: int, serverUser: int)
    ensures Delivered(ServerRole, Purged(q, false), clientUser, serverUser) == []
    ensures Delivered(ClientRole, Purged(q, false), clientUser, serverUser)
         == Delivered(ClientRole, q, clientUser, serverUser)
  {
    DeliveredInQueueOrder(ServerRole, Purged(q, false), clientUser, serverUser);
    DeliveredInQueueOrder(ClientRole, Purged(q, false), clientUser, serverUser);
    DeliveredInQueueOrder(ClientRole, q, clientUser, serverUser);
  }

  /** `ContextInitData`: the caller's context block. */
  class ContextBlock {
    var counter: int
    /** How often `pFn` has initialised the block's context. */
    var initCalls: nat

    constructor (counter: int)
      ensures this.counter == counter && initCalls == 0
    {
      this.counter := counter;
      initCalls := 0;
    }
  }

  // ------------------------------------------------------------------
  // The globals of dll/dll.cpp
  // ------------------------------------------------------------------

  class SteamApi {
    /** What a `Steam_Client` is constructed with; the same for every instance. */
    const signal: KeepaliveSignal
    const clientUser: int
    const serverUser: int
    const firstPipe: int
    const overlayDisabled: bool
    /** The width of `global_counter`. */
    const width: PointerWidth
    /** The `*_INTERFACE_VERSION` macros the buffers start from. */
    const defaults: Family -> Macro
    /** `settings_old_interfaces()`. */
    const settings: map<Family, string>

    /** The last client constructed; it is `steamclient_instance` while `live` holds. */
    var client: SteamClient
    /** `steamclient_instance != NULL`. */
    var live: bool
    var globalCounter: int
    /** `user_steam_pipe` and `server_steam_pipe`. */
    var userPipe: int
    var serverPipe: int
    /** The `loaded` flag of `load_old_steam_interfaces`; the `old_*` buffers are `Buffers()`. */
    var loaded: bool
    /** The non-null `old_*_instance` pointers. */
    var caches: map<Slot, Adapter>
    /** `g_pSteamClientGameServer`. */
    var gameServerClient: Option<Adapter>
    /** `steamclient_has_ipv6_functions_flag`. */
    var clientIpv6: bool
    var queues: Queues
    /** `manual_dispatch_called`. */
    var manualDispatchCalled: bool

    ghost predicate Valid()
      reads this`client, this`live, this`loaded, this`globalCounter, client`pipes, client`pipeCounter
    {
      clientUser != 0 && serverUser != 0 && 0 < firstPipe
      && (live ==> loaded && client.Valid() && client.Built(signal, clientUser, serverUser, firstPipe, overlayDisabled))
      && IsCounter(width, globalCounter)
    }

    /** The state `get_steam_client` hands out: the live client's, or a new one's. */
    function View(): ClientView
      reads this`client, this`live, client
    {
      if live then client.View() else InitialView(firstPipe)
    }

    /** The role `pipe` has in the client `get_steam_client` hands out. */
    function RoleIn(pipe: int): (r: Option<Role>)
      reads this`client, this`live, client`pipes
      ensures r.Some? <==> live && pipe in client.pipes
      ensures r.Some? ==> r.value == client.pipes[pipe]
    {
      if live then client.RoleOf(pipe) else None
    }

    /** The `old_*` buffer of family `f`: its macro, with its setting applied once the settings are loaded. */
    function Buffer(f: Family): seq<char>
      reads this`loaded
    {
      if loaded then LoadedBuffer(defaults, settings, f) else Padded(defaults(f))
    }

    /** All `old_*` buffers. */
    function Buffers(): (r: map<Family, seq<char>>)
      reads this`loaded
      ensures r.Keys == BufferFamilies
      ensures !loaded ==> r == InitialBuffers(defaults)
      ensures loaded ==> r == LoadedBuffers(defaults, settings)
    {
      map f | f in BufferFamilies :: Buffer(f)
    }

    /** The version a buffer names once the settings are loaded, as every reader sees it. */
    function LoadedVersion(f: Family): string
    {
      CString(LoadedBuffer(defaults, settings, f))
    }

    constructor (clientUser: int, serverUser: int, firstPipe: int, overlayDisabled: bool, width: PointerWidth,
                 defaults: Family -> Macro, settings: map<Family, string>)
      requires clientUser != 0 && serverUser != 0 && 0 < firstPipe
      ensures Valid() && fresh(signal) && fresh(client) && !signal.kill
      ensures this.clientUser == clientUser && this.serverUser == serverUser && this.firstPipe == firstPipe
      ensures this.overlayDisabled == overlayDisabled && this.width == width && this.defaults == defaults && this.settings == settings
      ensures !live && globalCounter == 0 && userPipe == 0 && serverPipe == 0
      ensures !loaded && caches == map[] && gameServerClient.None? && !clientIpv6
      ensures queues == Queues([], []) && !manualDispatchCalled
    {
      var kill := new KeepaliveSignal();
      signal := kill;
      this.clientUser := clientUser;
      this.serverUser := serverUser;
      this.firstPipe := firstPipe;
      this.overlayDisabled := overlayDisabled;
      this.width := width;
      this.defaults := defaults;
      this.settings := settings;
      client := new SteamClient(kill, clientUser, serverUser, firstPipe, overlayDisabled);
      live := false;
      globalCounter := 0;
      userPipe := 0;
      serverPipe := 0;
      loaded := false;
      caches := map[];
      gameServerClient := None;
      clientIpv6 := false;
      queues := Queues([], []);
      manualDispatchCalled := false;
    }

    /** `load_old_steam_interfaces`: the settings are applied by the first call only. */
    method LoadOldSteamInterfaces()
      requires Valid()
      modifies this`loaded
      ensures Valid() && loaded
      ensures Buffers() == LoadedBuffers(defaults, settings)
      ensures old(loaded) ==> unchanged(this)
    {
      if loaded {
        return;
      }
      loaded := true;
    }

    /**
     * `get_steam_client`: the live client, or, when there is none, the
     * buffers are loaded and a new client is constructed.
     */
    method GetSteamClient() returns (c: SteamClient)
      requires Valid()
      modifies this`client, this`live, this`loaded
      ensures Valid() && live && c == client && c.View() == old(View())
      ensures old(live) ==> unchanged(this)
      ensures !old(live) ==> fresh(c)
    {
      if live {
        return client;
      }
      LoadOldSteamInterfaces();
      c := new SteamClient(signal, clientUser, serverUser, firstPipe, overlayDisabled);
      client := c;
      live := true;
    }

    /** `destroy_client`: there is no client afterwards; a no-op when there is none. */
    method DestroyClient()
      requires Valid()
      modifies this`live
      ensures Valid() && !live
    {
      live := false;
    }

    /** `SteamAPI_GetHSteamUser`: the client user while it is logged in, else 0. */
    method GetHSteamUser() returns (user: int)
      requires Valid()
      modifies this`client, this`live, this`loaded
      ensures Valid() && live && client.View() == old(View())
      ensures old(live) ==> unchanged(this)
      ensures !old(live) ==> fresh(client)
      ensures user == if old(View()).userLoggedIn then clientUser else 0
    {
      var c := GetSteamClient();
      user := if c.userLoggedIn then clientUser else 0;
    }

    /** `SteamGameServer_GetHSteamUser`: the server user while the server is initialised, else 0. */
    method GameServerGetHSteamUser() returns (user: int)
      requires Valid()
      modifies this`client, this`live, this`loaded
      ensures Valid() && live && client.View() == old(View())
      ensures old(live) ==> unchanged(this)
      ensures !old(live) ==> fresh(client)
      ensures user == if old(View()).serverInit then serverUser else 0
    {
      var c := GetSteamClient();
      user := if c.serverInit then serverUser else 0;
    }

    /** `steamclient_has_ipv6_functions`: either latch. */
    method HasIpv6Functions() returns (b: bool)
      requires Valid()
      modifies this`client, this`live, this`loaded
      ensures Valid() && live && client.View() == old(View())
      ensures old(live) ==> unchanged(this)
      ensures !old(live) ==> fresh(client)
      ensures b == (old(View()).gameserverIpv6 || clientIpv6)
    {
      var c := GetSteamClient();
      b := c.gameserverIpv6 || clientIpv6;
    }

    /**
     * `create_client_interface` (and `CreateInterface`): the client adapter
     * for a "SteamClient" token, the client being fetched only then; the
     * current and unknown tokens set the flag.
     */
    method CreateClientInterface(v: string) returns (r: Option<Adapter>)
      requires Valid()
      modifies this`client, this`live, this`loaded, this`clientIpv6
      ensures Valid() && r == ClientInterface(v)
      ensures clientIpv6 == (old(clientIpv6) || RaisesClientIpv6(v))
      ensures !StartsWith(v, "SteamClient") ==> unchanged(this)
      ensures StartsWith(v, "SteamClient") ==> live && client.View() == old(View())
      ensures old(live) ==> client == old(client)
      ensures !old(live) && live ==> fresh(client)
    {
      r := None;
      if StartsWith(v, "SteamClient") {
        var c := GetSteamClient();
        r := ClientInterface(v);
        if RaisesClientIpv6(v) {
          clientIpv6 := true;
        }
      }
    }

    /** `SteamInternal_CreateInterface`: NULL unless the user is logged in or the server initialised. */
    method SteamInternalCreateInterface(v: string) returns (r: Option<Adapter>)
      requires Valid()
      modifies this`client, this`live, this`loaded, this`clientIpv6
      ensures Valid() && live && client.View() == old(View())
      ensures old(live) ==> client == old(client)
      ensures !old(live) ==> fresh(client)
      ensures var open := old(View()).userLoggedIn || old(View()).serverInit;
        r == (if open then ClientInterface(v) else None)
        && clientIpv6 == (old(clientIpv6) || (open && RaisesClientIpv6(v)))
    {
      var c := GetSteamClient();
      if !c.userLoggedIn && !c.serverInit {
        return None;
      }
      r := CreateClientInterface(v);
    }

    /** `SteamClient()`: NULL unless the user is logged in, else the interface the client buffer names. */
    method SteamClientOld() returns (r: Option<Adapter>)
      requires Valid()
      modifies this`client, this`live, this`loaded, this`clientIpv6
      ensures Valid() && live && client.View() == old(View())
      ensures old(live) ==> client == old(client)
      ensures !old(live) ==> fresh(client)
      ensures r == (if old(View()).userLoggedIn then ClientInterface(LoadedVersion(Client)) else None)
      ensures clientIpv6 == (old(clientIpv6) || (old(View()).userLoggedIn && RaisesClientIpv6(LoadedVersion(Client))))
    {
      var c := GetSteamClient();
      if !c.userLoggedIn {
        return None;
      }
      r := SteamInternalCreateInterface(CString(Buffer(Client)));
    }

    /** `SteamGameServerClient`: NULL unless the server is initialised, else the interface the client buffer names. */
    method GameServerClient() returns (r: Option<Adapter>)
      requires Valid()
      modifies this`client, this`live, this`loaded, this`clientIpv6
      ensures Valid() && live && client.View() == old(View())
      ensures old(live) ==> client == old(client)
      ensures !old(live) ==> fresh(client)
      ensures r == (if old(View()).serverInit then ClientInterface(LoadedVersion(Client)) else None)
      ensures clientIpv6 == (old(clientIpv6) || (old(View()).serverInit && RaisesClientIpv6(LoadedVersion(Client))))
    {
      var c := GetSteamClient();
      if !c.serverInit {
        return None;
      }
      r := SteamInternalCreateInterface(CString(Buffer(Client)));
    }

    /** `SteamInternal_ContextInit`: `pFn` runs exactly when the block is of another generation. */
    method ContextInit(block: ContextBlock)
      modifies block
      ensures block.counter == globalCounter
      ensures block.initCalls == old(block.initCalls) + (if old(block.counter) != globalCounter then 1 else 0)
    {
      if block.counter != globalCounter {
        block.initCalls := block.initCalls + 1;
        block.counter := globalCounter;
      }
    }

    /**
     * `SteamAPI_Init`: true; a no-op while the user pipe is open, else a
     * new pipe is bound to the client user and the generation moves on.
     */
    method Init() returns (ok: bool)
      requires Valid()
      modifies this`client, this`live, this`loaded, this`userPipe, this`globalCounter
      modifies client`pipes, client`pipeCounter, client`userLoggedIn, client`keepaliveJoinable, client`trace
      ensures Valid() && ok
      ensures old(userPipe) != 0 ==> unchanged(this) && unchanged(client)
      ensures old(userPipe) == 0 ==>
        live && (old(live) ==> client == old(client)) && (!old(live) ==> fresh(client))
        && userPipe == old(View()).pipeCounter && userPipe !in old(View()).pipes
        && globalCounter == Inc(width, old(globalCounter))
        && client.View() == Connected(old(View()), overlayDisabled)
    {
      ok := true;
      if userPipe != 0 {
        return;
      }
      var c := GetSteamClient();
      userPipe := c.CreateSteamPipe();
      var _ := c.ConnectToGlobalUser(userPipe);
      globalCounter := Inc(width, globalCounter);
    }

    /**
     * `SteamAPI_Shutdown`: logs the user out, releases the user pipe, shuts
     * down if no pipe is left, resets the user pipe, decrements the
     * generation without a check, clears the client-side caches and
     * destroys the client when the counter reaches 0. `client` then holds
     * the state the destroyed client was left in.
     */
    method Shutdown()
      requires Valid()
      modifies this`client, this`live, this`loaded, this`userPipe, this`globalCounter, this`caches
      modifies client`pipes, client`userLoggedIn, client`keepaliveJoinable, client`trace, signal
      ensures Valid()
      ensures userPipe == 0 && globalCounter == Dec(width, old(globalCounter))
      ensures caches == ServerCaches(old(caches))
      ensures loaded && (live <==> globalCounter != 0)
      ensures old(live) ==> client == old(client)
      ensures !old(live) ==> fresh(client)
      ensures client.View() == ReleasedAndClosed(old(View()).(userLoggedIn := false), old(userPipe), overlayDisabled)
      ensures signal.kill == KillAfterRelease(old(signal.kill), old(View()), old(userPipe))
    {
      var c := GetSteamClient();
      c.ClientShutdown();
      ReleaseAndClose(userPipe);
      userPipe := 0;
      globalCounter := Dec(width, globalCounter);
      caches := ServerCaches(caches);
      DestroyIfUnreferenced();
    }

    /** The end of both shutdowns: `destroy_client` once `global_counter` is zero. */
    method DestroyIfUnreferenced()
      requires Valid()
      modifies this`live
      ensures Valid()
      ensures live == (old(live) && globalCounter != 0)
    {
      if globalCounter == 0 {
        DestroyClient();
      }
    }

    /** `BReleaseSteamPipe(pipe)` followed by `BShutdownIfAllPipesClosed` on the live client. */
    method ReleaseAndClose(pipe: int)
      requires Valid() && live
      modifies client`pipes, client`keepaliveJoinable, client`trace, signal
      ensures Valid() && live
      ensures client.View() == ReleasedAndClosed(old(client.View()), pipe, overlayDisabled)
      ensures signal.kill == KillAfterRelease(old(signal.kill), old(client.View()), pipe)
    {
      var _ := client.BReleaseSteamPipe(pipe);
      var _ := client.BShutdownIfAllPipesClosed();
    }

    /**
     * `SteamInternal_GameServer_Init`: the first call creates the server
     * pipe, moves the generation on and fetches `g_pSteamClientGameServer`;
     * every call starts the game server, whose answer `accepted` is returned.
     * `ip`, `gamePort` and `queryPort` are passed through to `InitGameServer`.
     */
    method GameServerInit(ip: nat, gamePort: nat, queryPort: nat, secure: bool, version: string, accepted: bool) returns (ok: bool)
      requires Valid()
      modifies this`client, this`live, this`loaded, this`serverPipe, this`globalCounter
      modifies this`gameServerClient, this`clientIpv6
      modifies client`pipes, client`pipeCounter, client`serverInit, client`serverInited, client`trace
      ensures Valid() && ok == accepted && live && serverPipe != 0
      ensures old(live) ==> client == old(client)
      ensures !old(live) ==> fresh(client)
      ensures var started := if old(serverPipe) == 0 then LocalUserCreated(old(View())) else old(View());
        client.View() == Logged(started, InitGameServer(ip, gamePort, queryPort, secure, version))
      ensures old(serverPipe) == 0 ==>
        serverPipe == old(View()).pipeCounter && serverPipe !in old(View()).pipes
        && globalCounter == Inc(width, old(globalCounter))
        && gameServerClient == ClientInterface(LoadedVersion(Client))
        && clientIpv6 == (old(clientIpv6) || RaisesClientIpv6(LoadedVersion(Client)))
      ensures old(serverPipe) != 0 ==>
        serverPipe == old(serverPipe) && globalCounter == old(globalCounter)
        && gameServerClient == old(gameServerClient) && clientIpv6 == old(clientIpv6)
    {
      var c := GetSteamClient();
      if serverPipe == 0 {
        CreateServerUser();
      }
      c.Log(InitGameServer(ip, gamePort, queryPort, secure, version));
      ok := accepted;
    }

    /** The first game server init: a server pipe, one more reference, and the old client interface. */
    method CreateServerUser()
      requires Valid() && live
      modifies this`client, this`live, this`loaded, this`serverPipe, this`globalCounter
      modifies this`gameServerClient, this`clientIpv6
      modifies client`pipes, client`pipeCounter, client`serverInit, client`serverInited
      ensures Valid() && live && client == old(client)
      ensures client.View() == LocalUserCreated(old(View()))
      ensures serverPipe == old(View()).pipeCounter && serverPipe !in old(View()).pipes
      ensures globalCounter == Inc(width, old(globalCounter))
      ensures gameServerClient == ClientInterface(LoadedVersion(Client))
      ensures clientIpv6 == (old(clientIpv6) || RaisesClientIpv6(LoadedVersion(Client)))
    {
      var _, pipe := client.CreateLocalUser(true);
      serverPipe := pipe.value;
      globalCounter := Inc(width, globalCounter);
      gameServerClient := GameServerClient();
    }

    /**
     * `SteamGameServer_Init` and `SteamGameServer_InitSafe`: the game server
     * init, followed by an anonymous logon when the game server buffer names
     * an old version. The ports are the ones the init passes on, after the
     * old-version argument shuffle.
     */
    method GameServerInitLegacy(ip: nat, gamePort: nat, queryPort: nat, secure: bool, version: string, accepted: bool) returns (ok: bool)
      requires Valid()
      modifies this`client, this`live, this`loaded, this`serverPipe, this`globalCounter
      modifies this`gameServerClient, this`clientIpv6
      modifies client`pipes, client`pipeCounter, client`serverInit, client`serverInited, client`trace
      ensures Valid() && ok == accepted && live && serverPipe != 0
      ensures old(live) ==> client == old(client)
      ensures !old(live) ==> fresh(client)
      ensures var started := if old(serverPipe) == 0 then LocalUserCreated(old(View())) else old(View());
        var inited := Logged(started, InitGameServer(ip, gamePort, queryPort, secure, version));
        client.View() == if IsOldGameServer(LoadedVersion(GameServer)) then Logged(inited, LogOnAnonymous) else inited
      ensures old(serverPipe) == 0 ==>
        serverPipe == old(View()).pipeCounter && serverPipe !in old(View()).pipes
        && globalCounter == Inc(width, old(globalCounter))
        && gameServerClient == ClientInterface(LoadedVersion(Client))
        && clientIpv6 == (old(clientIpv6) || RaisesClientIpv6(LoadedVersion(Client)))
      ensures old(serverPipe) != 0 ==>
        serverPipe == old(serverPipe) && globalCounter == old(globalCounter)
        && gameServerClient == old(gameServerClient) && clientIpv6 == old(clientIpv6)
    {
      var c := GetSteamClient();
      var logon := IsOldGameServer(CString(Buffer(GameServer)));
      ok := GameServerInit(ip, gamePort, queryPort, secure, version, accepted);
      if logon {
        c.Log(LogOnAnonymous);
      }
    }

    /**
     * `SteamGameServer_Shutdown`: the server side of `Shutdown`; it also
     * drops `g_pSteamClientGameServer` and clears the game server caches.
     */
    method GameServerShutdown()
      requires Valid()
      modifies this`client, this`live, this`loaded, this`serverPipe, this`globalCounter
      modifies this`caches, this`gameServerClient
      modifies client`pipes, client`serverInit, client`keepaliveJoinable, client`trace, signal
      ensures Valid()
      ensures serverPipe == 0 && globalCounter == Dec(width, old(globalCounter)) && gameServerClient.None?
      ensures caches == ClientCaches(old(caches))
      ensures loaded && (live <==> globalCounter != 0)
      ensures old(live) ==> client == old(client)
      ensures !old(live) ==> fresh(client)
      ensures client.View() == ReleasedAndClosed(old(View()).(serverInit := false), old(serverPipe), overlayDisabled)
      ensures signal.kill == KillAfterRelease(old(signal.kill), old(View()), old(serverPipe))
    {
      var c := GetSteamClient();
      c.ServerShutdown();
      ReleaseAndClose(serverPipe);
      serverPipe := 0;
      globalCounter := Dec(width, globalCounter);
      gameServerClient := None;
      caches := ClientCaches(caches);
      DestroyIfUnreferenced();
    }

    /** The pipe an old-style accessor passes. */
    function SlotPipe(s: Slot): int
      reads this`userPipe, this`serverPipe
    {
      if s.ClientSlot? then userPipe else serverPipe
    }

    /** The user an old-style accessor passes, read from the client it has fetched. */
    function SlotUser(s: Slot, v: ClientView): int
    {
      if s.ClientSlot? then (if v.userLoggedIn then clientUser else 0)
      else (if v.serverInit then serverUser else 0)
    }

    /** The version an old-style accessor passes. */
    function SlotVersion(s: Slot): string
      requires IsSlot(s)
    {
      if s == ClientSlot(ParentalSettings) then "" else LoadedVersion(s.family)
    }

    /**
     * `CACHE_OLDSTEAM_INSTANCE` around one accessor (`SteamUser()`,
     * `SteamGameServer()`, ...): a cached instance is returned as is;
     * otherwise the getter is asked with the role pipe, the role user and the
     * buffer's version, and a non-null answer is cached.
     */
    method OldInterface(s: Slot) returns (r: Option<Adapter>)
      requires Valid() && IsSlot(s)
      modifies this`client, this`live, this`loaded, this`caches, client`gameserverIpv6
      ensures Valid()
      ensures s in old(caches) ==> r == Some(old(caches)[s]) && unchanged(this) && unchanged(client)
      ensures old(live) ==> client == old(client)
      ensures s !in old(caches) ==>
        live && (!old(live) ==> fresh(client))
        && r == Getter(s.family, RoleIn(SlotPipe(s)), SlotUser(s, old(View())), SlotVersion(s))
        && caches == (if r.Some? then old(caches)[s := r.value] else old(caches))
        && client.View() == old(View()).(gameserverIpv6 := old(View()).gameserverIpv6
             || (s == ServerSlot(GameServer) && r.Some? && RaisesGameServerIpv6(SlotVersion(s))))
    {
      if s in caches {
        return Some(caches[s]);
      }
      r := FetchSlot(s);
      if r.Some? {
        caches := caches[s := r.value];
      }
    }

    /** The accessor behind one cache, on the client `get_steam_client` hands out. */
    method FetchSlot(s: Slot) returns (r: Option<Adapter>)
      requires Valid() && IsSlot(s)
      modifies this`client, this`live, this`loaded, client`gameserverIpv6
      ensures Valid() && live
      ensures old(live) ==> client == old(client)
      ensures !old(live) ==> fresh(client)
      ensures r == Getter(s.family, RoleIn(SlotPipe(s)), SlotUser(s, old(View())), SlotVersion(s))
      ensures client.View() == old(View()).(gameserverIpv6 := old(View()).gameserverIpv6
             || (s == ServerSlot(GameServer) && r.Some? && RaisesGameServerIpv6(SlotVersion(s))))
    {
      var _ := GetSteamClient();
      r := AskSlot(s);
    }

    /** The accessor behind one cache, asked on the live client with the role pipe, the role user and the buffer's version. */
    method AskSlot(s: Slot) returns (r: Option<Adapter>)
      requires Valid() && live && IsSlot(s)
      modifies client`gameserverIpv6
      ensures Valid() && live
      ensures r == Getter(s.family, RoleIn(SlotPipe(s)), SlotUser(s, old(View())), SlotVersion(s))
      ensures client.View() == old(View()).(gameserverIpv6 := old(View()).gameserverIpv6
             || (s == ServerSlot(GameServer) && r.Some? && RaisesGameServerIpv6(SlotVersion(s))))
    {
      var user := SlotUser(s, client.View());
      var version := SlotVersion(s);
      if s == ServerSlot(GameServer) {
        r := client.GetGameServer(user, serverPipe, version);
      } else {
        r := Getter(s.family, client.RoleOf(SlotPipe(s)), user, version);
      }
    }

    /** `SteamInternal_FindOrCreateUserInterface`: the generic resolver on the user pipe. */
    method FindOrCreateUserInterface(user: int, v: string) returns (r: Option<Adapter>)
      requires Valid()
      modifies this`client, this`live, this`loaded, client`gameserverIpv6
      ensures Valid() && live
      ensures old(live) ==> client == old(client)
      ensures !old(live) ==> fresh(client)
      ensures r == GenericInterface(RoleIn(userPipe), user, v)
      ensures client.View() == old(View()).(gameserverIpv6 := old(View()).gameserverIpv6
                || (r.Some? && r.value.family == GameServer && RaisesGameServerIpv6(v)))
    {
      var c := GetSteamClient();
      r := c.GetGenericInterface(user, userPipe, v);
    }

    /** `SteamInternal_FindOrCreateGameServerInterface`: the generic resolver on the server pipe. */
    method FindOrCreateGameServerInterface(user: int, v: string) returns (r: Option<Adapter>)
      requires Valid()
      modifies this`client, this`live, this`loaded, client`gameserverIpv6
      ensures Valid() && live
      ensures old(live) ==> client == old(client)
      ensures !old(live) ==> fresh(client)
      ensures r == GenericInterface(RoleIn(serverPipe), user, v)
      ensures client.View() == old(View()).(gameserverIpv6 := old(View()).gameserverIpv6
                || (r.Some? && r.value.family == GameServer && RaisesGameServerIpv6(v)))
    {
      var c := GetSteamClient();
      r := c.GetGenericInterface(user, serverPipe, v);
    }

    /** `SteamAPI_RunCallbacks`: a client pass. */
    method RunCallbacks(now: nat)
      requires Valid()
      modifies this`client, this`live, this`loaded, client`cbRunActive, client`lastCbRun, client`trace
      ensures Valid() && live
      ensures old(live) ==> client == old(client)
      ensures !old(live) ==> fresh(client)
      ensures client.View() == Ran(old(View()), true, false, now)
    {
      var c := GetSteamClient();
      c.RunCallbacks(true, false, now);
    }

    /** `SteamGameServer_RunCallbacks`: a game server pass. */
    method GameServerRunCallbacks(now: nat)
      requires Valid()
      modifies this`client, this`live, this`loaded, client`cbRunActive, client`lastCbRun, client`trace
      ensures Valid() && live
      ensures old(live) ==> client == old(client)
      ensures !old(live) ==> fresh(client)
      ensures client.View() == Ran(old(View()), false, true, now)
    {
      var c := GetSteamClient();
      c.RunCallbacks(false, true, now);
    }

    /** `SteamAPI_RegisterCallback`. */
    method RegisterCallback(cb: Callback, iCallback: int)
      requires Valid()
      modifies this`client, this`live, this`loaded, client`trace
      ensures Valid() && live
      ensures old(live) ==> client == old(client)
      ensures !old(live) ==> fresh(client)
      ensures client.View() == Logged(old(View()), AddCallback(SideOf(cb.isServer), iCallback, cb.handle))
    {
      var c := GetSteamClient();
      c.RegisterCallback(cb, iCallback);
    }

    /** `SteamAPI_UnregisterCallback`: nothing happens while there is no client. */
    method UnregisterCallback(cb: Callback)
      requires Valid()
      modifies client`trace
      ensures Valid()
      ensures !live ==> unchanged(client)
      ensures live ==> client.View() == Logged(old(View()), RemoveCallback(SideOf(cb.isServer), cb.iCallback, cb.handle))
    {
      if !live {
        return;
      }
      client.UnregisterCallback(cb);
    }

    /** `SteamAPI_RegisterCallResult`: nothing happens for call handle 0. */
    method RegisterCallResult(cb: Callback, call: nat)
      requires Valid()
      modifies this`client, this`live, this`loaded, client`trace
      ensures Valid()
      ensures call == 0 ==> unchanged(this) && unchanged(client)
      ensures old(live) ==> client == old(client)
      ensures call != 0 ==>
        live && (!old(live) ==> fresh(client))
        && client.View() == Logged(Logged(old(View()), AddCallResult(ClientSide, call, cb.handle)),
                                   AddCallResult(ServerSide, call, cb.handle))
    {
      if call == 0 {
        return;
      }
      var c := GetSteamClient();
      c.RegisterCallResult(cb, call);
    }

    /** `SteamAPI_UnregisterCallResult`: nothing happens for call handle 0 or while there is no client. */
    method UnregisterCallResult(cb: Callback, call: nat)
      requires Valid()
      modifies client`trace
      ensures Valid()
      ensures call == 0 || !live ==> unchanged(client)
      ensures call != 0 && live ==>
        client.View() == Logged(Logged(old(View()), RemoveCallResult(ClientSide, call, cb.handle)),
                                RemoveCallResult(ServerSide, call, cb.handle))
    {
      if call == 0 || !live {
        return;
      }
      client.UnregisterCallResult(cb, call);
    }

    /** `cb_add_queue_client`: the event joins the back of the client queue. */
    method CbAddQueueClient(result: seq<bv8>, callback: int)
      modifies this`queues
      ensures queues == old(queues).(client := old(queues).client + [CbData(callback, result)])
    {
      queues := queues.(client := queues.client + [CbData(callback, result)]);
    }

    /** `cb_add_queue_server`: the event joins the back of the server queue. */
    method CbAddQueueServer(result: seq<bv8>, callback: int)
      modifies this`queues
      ensures queues == old(queues).(server := old(queues).server + [CbData(callback, result)])
    {
      queues := queues.(server := queues.server + [CbData(callback, result)]);
    }

    /** `SteamAPI_ManualDispatch_Init`: the first call hooks the server results, then the client's. */
    method ManualDispatchInit()
      requires Valid()
      modifies this`client, this`live, this`loaded, this`manualDispatchCalled, client`trace
      ensures Valid() && manualDispatchCalled
      ensures old(manualDispatchCalled) ==> unchanged(this) && unchanged(client)
      ensures old(live) ==> client == old(client)
      ensures !old(manualDispatchCalled) ==>
        live && (!old(live) ==> fresh(client))
        && client.View() == Logged(Logged(old(View()), SetCbAll(ServerSide)), SetCbAll(ClientSide))
    {
      if manualDispatchCalled {
        return;
      }
      manualDispatchCalled := true;
      var c := GetSteamClient();
      c.Log(SetCbAll(ServerSide));
      c.Log(SetCbAll(ClientSide));
    }

    /** `SteamAPI_ManualDispatch_RunFrame`: a server pass on a SERVER pipe, a client pass on a CLIENT pipe. */
    method RunFrame(pipe: int, now: nat)
      requires Valid()
      modifies this`client, this`live, this`loaded, client`cbRunActive, client`lastCbRun, client`trace
      ensures Valid() && live
      ensures old(live) ==> client == old(client)
      ensures !old(live) ==> fresh(client)
      ensures var role := old(RoleIn(pipe));
        client.View() == if role == Some(ServerRole) || role == Some(ClientRole) then
            Ran(old(View()), role == Some(ClientRole), role == Some(ServerRole), now)
          else old(View())
    {
      var c := GetSteamClient();
      var role := c.RoleOf(pipe);
      if role == Some(ServerRole) || role == Some(ClientRole) {
        c.RunCallbacks(role == Some(ClientRole), role == Some(ServerRole), now);
      }
    }

    /**
     * `SteamAPI_ManualDispatch_GetNextCallback`: the server queue is purged
     * first when the server is not initialised, whatever the pipe; then the
     * front of the role's queue is reported without removing it.
     */
    method GetNextCallback(pipe: int, hasMsg: bool) returns (ok: bool, msg: Option<CallbackMsg>)
      requires Valid()
      modifies this`client, this`live, this`loaded, this`queues
      ensures Valid() && live && client.View() == old(View())
      ensures old(live) ==> client == old(client)
      ensures !old(live) ==> fresh(client)
      ensures queues == Purged(old(queues), old(View()).serverInited)
      ensures msg == NextMessage(old(RoleIn(pipe)), queues, hasMsg, clientUser, serverUser)
      ensures ok == msg.Some?
    {
      var c := GetSteamClient();
      queues := Purged(queues, c.serverInited);
      msg := NextMessage(c.RoleOf(pipe), queues, hasMsg, clientUser, serverUser);
      ok := msg.Some?;
    }

    /** `SteamAPI_ManualDispatch_FreeLastCallback`: the role's queue loses its front event. */
    method FreeLastCallback(pipe: int)
      requires Valid()
      modifies this`client, this`live, this`loaded, this`queues
      ensures Valid() && live && client.View() == old(View())
      ensures old(live) ==> client == old(client)
      ensures !old(live) ==> fresh(client)
      ensures queues == Freed(old(RoleIn(pipe)), old(queues))
    {
      var c := GetSteamClient();
      queues := Freed(c.RoleOf(pipe), queues);
    }

    /**
     * `SteamAPI_ManualDispatch_GetAPICallResult`: asks the server utils on a
     * SERVER pipe and the client utils on a CLIENT pipe, whose answer is
     * `answer`; false on any other pipe.
     */
    method GetAPICallResult(pipe: int, call: nat, answer: bool) returns (ok: bool)
      requires Valid()
      modifies this`client, this`live, this`loaded, client`trace
      ensures Valid() && live
      ensures old(live) ==> client == old(client)
      ensures !old(live) ==> fresh(client)
      ensures var role := old(RoleIn(pipe));
        var routed := role == Some(ServerRole) || role == Some(ClientRole);
        ok == (routed && answer)
        && client.View() == if routed then
             Logged(old(View()), Event.GetAPICallResult(if role == Some(ServerRole) then ServerSide else ClientSide, call))
           else old(View())
    {
      var c := GetSteamClient();
      var role := c.RoleOf(pipe);
      if role == Some(ServerRole) {
        c.Log(Event.GetAPICallResult(ServerSide, call));
        ok := answer;
      } else if role == Some(ClientRole) {
        c.Log(Event.GetAPICallResult(ClientSide, call));
        ok := answer;
      } else {
        ok := false;
      }
    }

    /** `Steam_BGetCallback`: dispatch is set up, a pass runs for both roles, then the next event is fetched. */
    method BGetCallback(pipe: int, hasMsg: bool, now: nat) returns (ok: bool, msg: Option<CallbackMsg>)
      requires Valid()
      modifies this`client, this`live, this`loaded, this`manualDispatchCalled, this`queues
      modifies client`cbRunActive, client`lastCbRun, client`trace
      ensures Valid() && live && manualDispatchCalled
      ensures old(live) ==> client == old(client)
      ensures !old(live) ==> fresh(client)
      ensures var hooked := if old(manualDispatchCalled) then old(View())
                            else Logged(Logged(old(View()), SetCbAll(ServerSide)), SetCbAll(ClientSide));
        client.View() == Ran(hooked, true, true, now)
      ensures queues == Purged(old(queues), old(View()).serverInited)
      ensures msg == NextMessage(old(RoleIn(pipe)), queues, hasMsg, clientUser, serverUser) && ok == msg.Some?
    {
      ManualDispatchInit();
      var c := GetSteamClient();
      c.RunCallbacks(true, true, now);
      ok, msg := GetNextCallback(pipe, hasMsg);
    }
  }
}
