/** Single-instance enforcement. On Unix the lock is a listening Unix
    domain socket at a path derived from the application id; a second
    instance detects the first by connecting to it and can send it the
    eight bytes "activate". On Windows the lock is a named mutex. The
    file-system namespace of sockets and the kernel's named mutexes are
    explicit objects; the environment is a map from variable names to
    values (a variable that is unset or not valid Unicode is absent). */
module SingleInstance {
  import opened Wrappers
  import opened Paths

  // ---------------------------------------------------------------------
  // The socket path

  type Env = map<string, string>

  /** `$XDG_RUNTIME_DIR`, else `$TMPDIR`, else `/tmp`. */
  function RuntimeDir(env: Env): (dir: string)
    ensures dir == "/tmp" || dir in env.Values
    ensures "XDG_RUNTIME_DIR" !in env && "TMPDIR" !in env ==> dir == "/tmp"
  {
    if "XDG_RUNTIME_DIR" in env then env["XDG_RUNTIME_DIR"]
    else if "TMPDIR" in env then env["TMPDIR"]
    else "/tmp"
  }

  /** `socket_path`: `<runtime dir>/<app_id>.sock`. */
  function SocketPath(env: Env, appId: string): (path: string)
    ensures IsAbsolute(appId) ==> path == appId + ".sock"
  {
    assert appId != [] ==> (appId + ".sock")[0] == appId[0];
    Join(RuntimeDir(env), appId + ".sock")
  }

  /** For an application id that is not an absolute path, the socket lies
      directly in the runtime directory and is named after the id; the
      directory is chosen in the order XDG_RUNTIME_DIR, TMPDIR, /tmp. */
  lemma SocketPathShape(env: Env, appId: string)
    requires !IsAbsolute(appId)
    ensures SocketPath(env, appId) == JoinPrefix(RuntimeDir(env)) + appId + ".sock"
    ensures "XDG_RUNTIME_DIR" in env ==>
      SocketPath(env, appId) == JoinPrefix(env["XDG_RUNTIME_DIR"]) + appId + ".sock"
    ensures "XDG_RUNTIME_DIR" !in env && "TMPDIR" in env ==>
      SocketPath(env, appId) == JoinPrefix(env["TMPDIR"]) + appId + ".sock"
    ensures "XDG_RUNTIME_DIR" !in env && "TMPDIR" !in env ==>
      SocketPath(env, appId) == "/tmp/" + appId + ".sock"
  {
    assert !IsAbsolute(appId + ".sock") by {
      if appId == [] {
        assert (appId + ".sock")[0] == '.';
      } else {
        assert (appId + ".sock")[0] == appId[0];
      }
    }
    JoinRelative(RuntimeDir(env), appId + ".sock");
  }

  /** Two applications with different relative ids never share a socket. */
  lemma SocketPathInjective(env: Env, a: string, b: string)
    requires !IsAbsolute(a) && !IsAbsolute(b)
    requires SocketPath(env, a) == SocketPath(env, b)
    ensures a == b
  {
    SocketPathShape(env, a);
    SocketPathShape(env, b);
    var p := JoinPrefix(RuntimeDir(env));
    assert p + (a + ".sock") == p + (b + ".sock");
    assert (p + (a + ".sock"))[|p|..] == a + ".sock";
    assert (p + (b + ".sock"))[|p|..] == b + ".sock";
    assert a == (a + ".sock")[..|a|];
    assert b == (b + ".sock")[..|b|];
  }

  // ---------------------------------------------------------------------
  // The socket namespace

  /** Socket files by path, each with whether a live listener is bound to
      it (a file left by a process that died has none), and the paths where
      binding fails for another reason (permissions, a missing directory). */
  class SocketNamespace {
    var files: map<string, bool>
    const unbindable: set<string>

    constructor (files: map<string, bool>, unbindable: set<string>)
      ensures this.files == files && this.unbindable == unbindable
    {
      this.files := files;
      this.unbindable := unbindable;
    }

    predicate Listening(path: string)
      reads this
    {
      path in files && files[path]
    }

    /** `UnixStream::connect`: succeeds only when something listens. */
    method Connect(path: string) returns (ok: bool)
      ensures ok == Listening(path)
    {
      ok := Listening(path);
    }

    /** `remove_file`: unlinks the path; reports whether it existed. */
    method RemoveFile(path: string) returns (ok: bool)
      modifies this
      ensures ok == (path in old(files))
      ensures files == old(files) - {path}
    {
      ok := path in files;
      files := files - {path};
    }

    /** `UnixListener::bind`: creates the socket file and listens, unless
      the path exists or is not bindable. */
    method Bind(path: string) returns (ok: bool)
      modifies this
      ensures ok == (path !in old(files) && path !in unbindable)
      ensures files == if ok then old(files)[path := true] else old(files)
    {
      ok := path !in files && path !in unbindable;
      if ok {
        files := files[path := true];
      }
    }

    /** The owning process dies without running its destructor: the file
        stays, but nothing listens on it any more. */
    method Crash(path: string)
      modifies this
      ensures files == if path in old(files) then old(files)[path := false] else old(files)
    {
      if path in files {
        files := files[path := false];
      }
    }
  }

  // ---------------------------------------------------------------------
  // Acquiring and releasing the lock

  /** The error of a second instance. */
  datatype AlreadyRunning = AlreadyRunning

  function AlreadyRunningMessage(e: AlreadyRunning): string
  {
    "Another instance is already running"
  }

  /** The guard of a running instance: it records its socket path. */
  class Instance {
    const socketPath: string

    constructor (socketPath: string)
      ensures this.socketPath == socketPath
    {
      this.socketPath := socketPath;
    }

    /** `Drop`: removes the socket file (the source ignores a failed
        removal; removal cannot fail in this namespace). */
    method Drop(ns: SocketNamespace)
      modifies ns
      ensures ns.files == old(ns.files) - {socketPath}
    {
      var _ := ns.RemoveFile(socketPath);
    }
  }

  /** `platform_acquire` on Unix: a successful connect means another
      instance is alive; otherwise any stale file is removed and the path is
      bound, and a failed bind also means AlreadyRunning. */
  method Acquire(env: Env, appId: string, ns: SocketNamespace) returns (r: Result<Instance, AlreadyRunning>)
    modifies ns
    ensures old(ns.Listening(SocketPath(env, appId))) ==>
      r == Err(AlreadyRunning) && ns.files == old(ns.files)
    ensures !old(ns.Listening(SocketPath(env, appId))) && SocketPath(env, appId) in ns.unbindable ==>
      r == Err(AlreadyRunning) && ns.files == old(ns.files) - {SocketPath(env, appId)}
    ensures !old(ns.Listening(SocketPath(env, appId))) && SocketPath(env, appId) !in ns.unbindable ==>
      && r.Ok? && fresh(r.value) && r.value.socketPath == SocketPath(env, appId)
      && ns.files == old(ns.files)[SocketPath(env, appId) := true]
  {
    var path := SocketPath(env, appId);
    var alive := ns.Connect(path);
    if alive {
      return Err(AlreadyRunning);
    }
    var _ := ns.RemoveFile(path);
    var bound := ns.Bind(path);
    if !bound {
      return Err(AlreadyRunning);
    }
    var instance := new Instance(path);
    r := Ok(instance);
  }

  /** A first instance holds the lock, a second is refused, and after the
      first one's guard is dropped a third acquires it again. */
  method SecondInstanceRefusedUntilDrop(env: Env, appId: string, ns: SocketNamespace)
    returns (first: Result<Instance, AlreadyRunning>, second: Result<Instance, AlreadyRunning>,
             third: Result<Instance, AlreadyRunning>)
    requires !ns.Listening(SocketPath(env, appId)) && SocketPath(env, appId) !in ns.unbindable
    modifies ns
    ensures first.Ok? && second == Err(AlreadyRunning) && third.Ok?
  {
    var path := SocketPath(env, appId);
    first := Acquire(env, appId, ns);
    second := Acquire(env, appId, ns);
    first.value.Drop(ns);
    third := Acquire(env, appId, ns);
  }

  /** A socket file left by a crashed instance does not block the next
      one: nothing answers the connect, so the file is removed and bound
      again. */
  method StaleSocketRecovered(env: Env, appId: string, ns: SocketNamespace)
    returns (first: Result<Instance, AlreadyRunning>, next: Result<Instance, AlreadyRunning>)
    requires !ns.Listening(SocketPath(env, appId)) && SocketPath(env, appId) !in ns.unbindable
    modifies ns
    ensures first.Ok? && next.Ok?
    ensures ns.Listening(SocketPath(env, appId))
  {
    first := Acquire(env, appId, ns);
    ns.Crash(SocketPath(env, appId));
    next := Acquire(env, appId, ns);
  }

  // ---------------------------------------------------------------------
  // The activation channel

  /** The sentinel the sender writes. */
  const ActivateMsg: seq<u8> := [0x61, 0x63, 0x74, 0x69, 0x76, 0x61, 0x74, 0x65]

  /** The receiver's test on the bytes one `read` returned (at most 64):
      some bytes were read and the first min(n, 8) of them equal the
      eight-byte sentinel. */
  function ReadTriggersCallback(data: seq<u8>): (fires: bool)
    requires |data| <= 64
    ensures fires <==> |data| >= 8 && data[..8] == ActivateMsg
  {
    |data| > 0 && data[..Min(|data|, 8)] == ActivateMsg
  }

  /** A read that returns a prefix of the sentinel fires the callback
      exactly when it returns the whole sentinel: what the sender writes
      satisfies the receiver, and a short read does not. */
  lemma SentinelRoundTrip(k: nat)
    requires k <= |ActivateMsg|
    ensures ReadTriggersCallback(ActivateMsg[..k]) <==> k == 8
  {
  }

  /** Bytes after the eighth do not matter. */
  lemma TrailingBytesIgnored(data: seq<u8>, extra: seq<u8>)
    requires |data| >= 8 && |data + extra| <= 64
    ensures ReadTriggersCallback(data + extra) == ReadTriggersCallback(data)
  {
    assert (data + extra)[..8] == data[..8];
  }

  /** What one accepted connection yields to `read`. */
  datatype ReadResult = ReadOk(data: seq<u8>) | ReadFailed

  /** One step of `listener.incoming()`. */
  datatype Incoming = Accepted(read: ReadResult) | AcceptFailed

  predicate WellSized(incoming: seq<Incoming>)
  {
    forall i :: 0 <= i < |incoming| ==>
      incoming[i].Accepted? && incoming[i].read.ReadOk? ==> |incoming[i].read.data| <= 64
  }

  /** Whether one accepted connection fires the callback. */
  function Fires(c: Incoming): bool
    requires c.Accepted? && (c.read.ReadOk? ==> |c.read.data| <= 64)
  {
    c.read.ReadOk? && ReadTriggersCallback(c.read.data)
  }

  /** The number of callbacks the accept loop makes: one per accepted
      connection whose read fires, up to the first accept failure. */
  function CallbackCount(incoming: seq<Incoming>): nat
    requires WellSized(incoming)
  {
    if incoming == [] || incoming[0].AcceptFailed? then 0
    else (if Fires(incoming[0]) then 1 else 0) + CallbackCount(incoming[1..])
  }

  /** Connections the loop accepts before it stops. */
  function AcceptedBeforeFailure(incoming: seq<Incoming>): nat
  {
    if incoming == [] || incoming[0].AcceptFailed? then 0
    else 1 + AcceptedBeforeFailure(incoming[1..])
  }

  /** At most one callback per accepted connection, and nothing after the
      first accept failure counts. */
  lemma {:induction false} AtMostOneCallbackPerConnection(incoming: seq<Incoming>)
    requires WellSized(incoming)
    ensures CallbackCount(incoming) <= AcceptedBeforeFailure(incoming)
    ensures forall rest :: WellSized(incoming + [AcceptFailed] + rest) ==>
      CallbackCount(incoming + [AcceptFailed] + rest) == CallbackCount(incoming)
  {
    if incoming != [] && incoming[0].Accepted? {
      assert WellSized(incoming[1..]);
      AtMostOneCallbackPerConnection(incoming[1..]);
      forall rest | WellSized(incoming + [AcceptFailed] + rest)
        ensures CallbackCount(incoming + [AcceptFailed] + rest) == CallbackCount(incoming)
      {
        var all := incoming + [AcceptFailed] + rest;
        assert all[1..] == incoming[1..] + [AcceptFailed] + rest;
        assert all[0] == incoming[0];
      }
    } else if incoming != [] {
      forall rest | WellSized(incoming + [AcceptFailed] + rest)
        ensures CallbackCount(incoming + [AcceptFailed] + rest) == CallbackCount(incoming)
      {
        assert (incoming + [AcceptFailed] + rest)[0] == incoming[0];
      }
    } else {
      forall rest | WellSized(incoming + [AcceptFailed] + rest)
        ensures CallbackCount(incoming + [AcceptFailed] + rest) == CallbackCount(incoming)
      {
        assert (incoming + [AcceptFailed] + rest)[0] == AcceptFailed;
      }
    }
  }

  /** The body of the listener thread of `platform_on_activate`: for each
      accepted connection one read of up to 64 bytes, the callback when it
      fires, and a stop at the first accept failure. */
  method ServeActivations(incoming: seq<Incoming>) returns (callbacks: nat)
    requires WellSized(incoming)
    ensures callbacks == CallbackCount(incoming)
  {
    callbacks := 0;
    var i := 0;
    while i < |incoming|
      invariant 0 <= i <= |incoming|
      invariant WellSized(incoming[i..])
      invariant forall j :: 0 <= j < i ==> incoming[j].Accepted?
      invariant callbacks + CallbackCount(incoming[i..]) == CallbackCount(incoming)
    {
      assert incoming[i..][1..] == incoming[i + 1..];
      if incoming[i].AcceptFailed? {
        break;
      }
      var read := incoming[i].read;
      if read.ReadOk? && ReadTriggersCallback(read.data) {
        callbacks := callbacks + 1;
      }
      i := i + 1;
    }
  }

  /** Why a send fails. */
  datatype SendError = ConnectFailed | WriteFailed

  /** `platform_send_activate` on Unix: connect to the derived path and
      write the sentinel; returns the bytes written. */
  method SendActivate(env: Env, appId: string, ns: SocketNamespace, writeFails: bool) returns (r: Result<seq<u8>, SendError>)
    ensures !ns.Listening(SocketPath(env, appId)) ==> r == Err(ConnectFailed)
    ensures ns.Listening(SocketPath(env, appId)) ==> r == if writeFails then Err(WriteFailed) else Ok(ActivateMsg)
    ensures r.Ok? ==> ReadTriggersCallback(r.value)
  {
    var connected := ns.Connect(SocketPath(env, appId));
    if !connected {
      return Err(ConnectFailed);
    }
    if writeFails {
      return Err(WriteFailed);
    }
    SentinelRoundTrip(8);
    r := Ok(ActivateMsg);
  }

  // ---------------------------------------------------------------------
  // Windows

  /** `"Global\<app_id>"`. */
  function MutexName(appId: string): (name: string)
    ensures |name| == 7 + |appId| && name[..7] == "Global\\" && name[7..] == appId
  {
    "Global\\" + appId
  }

  /** The kernel's named mutexes, with the number of open handles to each,
      and the names for which CreateMutexW fails outright. */
  class MutexNamespace {
    var handles: map<string, nat>
    const createFails: set<string>

    constructor (createFails: set<string>)
      ensures handles == map[] && this.createFails == createFails
    {
      handles := map[];
      this.createFails := createFails;
    }

    predicate Exists(name: string)
      reads this
    {
      name in handles && handles[name] > 0
    }

    /** CreateMutexW: opens a handle, creating the mutex if needed, and
        reports whether it already existed (ERROR_ALREADY_EXISTS). */
    method CreateMutex(name: string) returns (ok: bool, alreadyExists: bool)
      modifies this
      ensures ok == (name !in createFails)
      ensures ok ==> alreadyExists == old(Exists(name))
      ensures handles == if ok then old(handles)[name := if old(Exists(name)) then old(handles)[name] + 1 else 1]
                         else old(handles)
    {
      ok := name !in createFails;
      alreadyExists := Exists(name);
      if ok {
        handles := handles[name := if alreadyExists then handles[name] + 1 else 1];
      }
    }

    /** CloseHandle: the mutex disappears with its last handle. */
    method CloseHandle(name: string)
      modifies this
      ensures handles == if name in old(handles) && old(handles)[name] > 1 then old(handles)[name := old(handles)[name] - 1]
                         else old(handles) - {name}
    {
      if name in handles && handles[name] > 1 {
        handles := handles[name := handles[name] - 1];
      } else {
        handles := handles - {name};
      }
    }
  }

  /** The Windows guard: it owns one handle to the named mutex. */
  class WindowsInstance {
    const mutexName: string

    constructor (mutexName: string)
      ensures this.mutexName == mutexName
    {
      this.mutexName := mutexName;
    }

    /** Dropping the guard closes its handle. */
    method Drop(ns: MutexNamespace)
      modifies ns
      ensures ns.handles == if mutexName in old(ns.handles) && old(ns.handles)[mutexName] > 1
                            then old(ns.handles)[mutexName := old(ns.handles)[mutexName] - 1]
                            else old(ns.handles) - {mutexName}
    {
      ns.CloseHandle(mutexName);
    }
  }

  /** `platform_acquire` on Windows: a failed create and an existing mutex
      both mean AlreadyRunning, and in the second case the new handle is
      closed again, so the namespace ends as it began. */
  method WindowsAcquire(appId: string, ns: MutexNamespace) returns (r: Result<WindowsInstance, AlreadyRunning>)
    modifies ns
    ensures MutexName(appId) in ns.createFails ==> r == Err(AlreadyRunning) && ns.handles == old(ns.handles)
    ensures MutexName(appId) !in ns.createFails && old(ns.Exists(MutexName(appId))) ==>
      r == Err(AlreadyRunning) && ns.handles == old(ns.handles)
    ensures MutexName(appId) !in ns.createFails && !old(ns.Exists(MutexName(appId))) ==>
      r.Ok? && fresh(r.value) && r.value.mutexName == MutexName(appId) &&
      ns.handles == old(ns.handles)[MutexName(appId) := 1]
  {
    var name := MutexName(appId);
    var ok, existed := ns.CreateMutex(name);
    if !ok {
      return Err(AlreadyRunning);
    }
    if existed {
      ns.CloseHandle(name);
      assert ns.handles == old(ns.handles);
      return Err(AlreadyRunning);
    }
    var instance := new WindowsInstance(name);
    r := Ok(instance);
  }

  /** On Windows `on_activate` registers nothing, so no callback is ever
      made. */
  method WindowsServeActivations(incoming: seq<Incoming>) returns (callbacks: nat)
    ensures callbacks == 0
  {
    callbacks := 0;
  }

  /** On Windows sending always reports success and sends nothing. */
  method WindowsSendActivate(appId: string) returns (r: Result<(), SendError>)
    ensures r == Ok(())
  {
    r := Ok(());
  }
}
