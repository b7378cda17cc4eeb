/**
 * TorManager: starts the Tor daemon (or finds one already running), waits for its control-port
 * file and for bootstrapping to finish, and reports progress, success or failure to a listener;
 * stops the daemon through its control port.
 *
 * Everything outside this class is an oracle: the file system is a map passed in and out, the
 * control connection is a Session whose connect and authenticate succeed or raise an
 * IOException, GETINFO replies are given, and each poll tick carries what the daemon did and how
 * many milliseconds its sleep took (0 for an interrupted sleep).
 */
module TorManager {
  import opened Wrappers
  import opened JavaLang
  import opened FileCopy

  const ControlPortTimeout: nat := 50 * 1000
  const BootstrapTimeout: nat := 90 * 1000
  const Delimiter: char := ':'
  const ControlPortFileName: string := "controlport"
  const WorkingSubdirectory: string := "/torp2phome/"

  /** The result codes of Task. */
  const SUCCESS: int := 0
  const FAILURE: int := 1
  const UPDATE: int := 2

  const AlreadyRunning: string := "Tor already running"
  const BootstrappingDone: string := "Bootstrapping done"
  const BootstrappingStarted: string := "Bootstrapping started."
  const ShutdownSignaled: string := "Signaled Tor to shutdown."
  const NoControlPortFile: string := "Tor did not create the control port file in the given timeout."
  const UnreadableControlPortFile: string := "Could not read the control port output file."
  const NotBootstrapped: string := "Tor did not bootstrap in the given timeout."

  /** The status line prefix by which bootstrapping is recognised as finished. */
  const DoneMarker: string := "NOTICE BOOTSTRAP PROGRESS=100 TAG=done"
  const ProgressKey: string := "PROGRESS="

  /** The largest port java.net.Socket accepts. */
  const MaxPort: int := 65535

  // ---------------------------------------------------------------- updates and the listener

  /**
   * The message of an update: a text; the progress text "Bootstrap: " followed by a percentage;
   * or the exception whose getMessage() the task publishes (for the task's own
   * TimeoutExceptions that text is the exception's message field).
   */
  datatype Payload = Plain(text: string) | Progress(percent: int) | MessageOf(cause: Exception)

  /** TorManager.Update: a result code and a message. */
  datatype Update = Update(result: int, message: Payload)

  /** The listener call made for a batch of updates. */
  datatype Notification = Succeeded(message: Payload) | Progressed(message: Payload) | Faulted(message: Payload)

  /** Task.onProgressUpdate: only the last update of a batch is dispatched, by its code. */
  function OnProgressUpdate(batch: seq<Update>): (n: Option<Notification>)
    ensures batch == [] ==> n == None
    ensures n.Some? ==> batch != [] && n.value.message == batch[|batch| - 1].message
    ensures n.Some? && n.value.Succeeded? <==> batch != [] && batch[|batch| - 1].result == SUCCESS
    ensures n.Some? && n.value.Progressed? <==> batch != [] && batch[|batch| - 1].result == UPDATE
    ensures n.Some? && n.value.Faulted? <==> batch != [] && batch[|batch| - 1].result == FAILURE
  {
    if |batch| == 0 then None
    else
      var last := batch[|batch| - 1];
      if last.result == SUCCESS then Some(Succeeded(last.message))
      else if last.result == UPDATE then Some(Progressed(last.message))
      else if last.result == FAILURE then Some(Faulted(last.message))
      else None
  }

  /** The success message: prefix, control port and SOCKS port joined by the delimiter. */
  function SuccessText(prefix: string, control: int, socks: int): string
  {
    prefix + [Delimiter] + DecimalString(control) + [Delimiter] + DecimalString(socks)
  }

  function ProgressUpdate(percent: int): Update
  {
    Update(UPDATE, Progress(percent))
  }

  // ---------------------------------------------------------------- paths

  /** getWorkingDirectory. */
  function WorkingDirectory(directory: string): string
  {
    directory + WorkingSubdirectory
  }

  /** The control-port record, where Tor is told to write its control port. */
  function PortFile(directory: string): string { WorkingDirectory(directory) + ControlPortFileName }

  function TorFile(directory: string): string { WorkingDirectory(directory) + "tor" }

  function TorrcFile(directory: string): string { WorkingDirectory(directory) + "torrc" }

  function ConfigFile(directory: string): string { WorkingDirectory(directory) + "/config/p2p.ini" }

  // ---------------------------------------------------------------- parsers

  /** InputStreamReader's decoding of a file, one character per byte. */
  function Latin1(bytes: seq<byte>): (text: string)
    ensures |text| == |bytes|
    ensures forall i :: 0 <= i < |bytes| ==> text[i] as int == bytes[i]
  {
    seq(|bytes|, i requires 0 <= i < |bytes| => bytes[i] as char)
  }

  /** parsePort: Integer.valueOf of the text after the last ':' (the whole line if there is none). */
  function ParsePort(line: string): (r: Result<int, Exception>)
    ensures r.Ok? ==> IntMin <= r.value <= IntMax
  {
    var tail := line[LastIndexOf(line, Delimiter) + 1..];
    match ParseInt(tail)
    case Some(n) => Ok(n)
    case None => Err(NumberFormat(tail))
  }

  /** Where parsePercent starts reading: just after the first "PROGRESS=" (at 8 if there is none). */
  function PercentStart(line: string): int
  {
    IndexOf(line, ProgressKey, 0) + |ProgressKey|
  }

  /** parsePercent: Integer.valueOf of the text from PercentStart up to the next space. */
  function ParsePercent(line: string): (r: Result<int, Exception>)
    ensures r.Ok? ==> IntMin <= r.value <= IntMax
  {
    var start := PercentStart(line);
    var end := IndexOf(line, " ", start);
    match Substring(line, start, end)
    case Err(e) => Err(e)
    case Ok(digits) =>
      match ParseInt(digits)
      case Some(n) => Ok(n)
      case None => Err(NumberFormat(digits))
  }

  /** The port of a GETINFO net/listeners/socks reply, with its quotes taken out. */
  function SocksPort(reply: string): Result<int, Exception>
  {
    ParsePort(Without(reply, '"'))
  }

  /**
   * getControlPort: the port in the first line of the control-port record, or -1 when the file
   * is missing, empty (readLine gives null) or its line does not parse; it never throws.
   */
  function GetControlPort(files: FileStore, directory: string): (port: int)
    ensures port == -1 || IntMin <= port <= IntMax
    ensures port != -1 ==>
      PortFile(directory) in files &&
      FirstLine(Latin1(files[PortFile(directory)])).Some? &&
      ParsePort(FirstLine(Latin1(files[PortFile(directory)])).value) == Ok(port)
    ensures PortFile(directory) in files && FirstLine(Latin1(files[PortFile(directory)])).Some? &&
            ParsePort(FirstLine(Latin1(files[PortFile(directory)])).value).Ok? ==>
      port == ParsePort(FirstLine(Latin1(files[PortFile(directory)])).value).value
  {
    var path := PortFile(directory);
    if path !in files then -1
    else
      match FirstLine(Latin1(files[path]))
      case None => -1
      case Some(line) =>
        match ParsePort(line)
        case Ok(p) => p
        case Err(_) => -1
  }

  // ---------------------------------------------------------------- the environment

  /** How a control connection goes: new Socket plus getConnection, then authenticate. */
  datatype Session = Session(connect: Outcome<string>, authenticate: Outcome<string>)

  /**
   * Opening an authenticated control connection to localhost at port. java.net.Socket rejects a
   * port outside 0..65535 with IllegalArgumentException, which is not an IOException.
   */
  function Open(port: int, session: Session): (r: Outcome<Exception>)
    ensures r.Pass? <==> 0 <= port <= MaxPort && session.connect.Pass? && session.authenticate.Pass?
    ensures r.Fail? && !(0 <= port <= MaxPort) ==> r.error == IllegalPort(port)
    ensures r.Fail? && 0 <= port <= MaxPort ==> r.error.IOError?
  {
    if !(0 <= port <= MaxPort) then Fail(IllegalPort(port))
    else if session.connect.Fail? then Fail(IOError(session.connect.error))
    else if session.authenticate.Fail? then Fail(IOError(session.authenticate.error))
    else Pass
  }

  /** One turn of a poll loop: what the environment did, and how long the sleep took. */
  datatype Tick<E> = Tick(event: E, elapsed: nat)

  /** The milliseconds the ticks from k on add to waited. */
  function Elapsed<E>(ticks: seq<Tick<E>>, k: nat): nat
    requires k <= |ticks|
    decreases |ticks| - k
  {
    if k == |ticks| then 0 else ticks[k].elapsed + Elapsed(ticks, k + 1)
  }

  /** The raw resources R.raw.tor (a zip), R.raw.torrc and R.raw.p2p. */
  datatype Resources = Resources(tor: Resource, torrc: Resource, p2p: Resource)

  /** Everything StartTask receives from outside. */
  datatype StartEnv = StartEnv(
    probe: Session,                                 // the reuse probe's control connection
    probeSocks: Result<string, string>,             // its GETINFO net/listeners/socks reply, or IOException
    resources: Resources,
    exec: Outcome<string>,                          // Runtime.exec
    portPolls: seq<Tick<Option<seq<byte>>>>,        // per tick: what Tor wrote to the control-port record, if anything
    session: Session,                               // the control connection after start
    bootPolls: seq<Tick<Result<string, string>>>,   // per tick: the GETINFO status/bootstrap-phase reply, or IOException
    socks: Result<string, string>)                  // the final GETINFO net/listeners/socks reply, or IOException

  /** Time goes on: the clock readings are enough to exhaust both budgets. */
  predicate Live(env: StartEnv)
  {
    Elapsed(env.portPolls, 0) >= ControlPortTimeout && Elapsed(env.bootPolls, 0) >= BootstrapTimeout
  }

  /** What a run of StartTask leaves: the updates published in order, the files, the process. */
  datatype Run = Run(published: seq<Update>, files: FileStore, spawned: bool, destroyed: bool)

  // ---------------------------------------------------------------- StartTask, as functions

  /** The outcome of the check whether Tor is already running. */
  datatype Probe = Reused(control: int, socks: int) | NotRunning | Broken(cause: Exception)

  /**
   * The reuse probe: with a control port on record, connect, authenticate and ask for the SOCKS
   * port. An IOException means "not running"; any other exception escapes the probe.
   */
  function ProbeDaemon(files: FileStore, directory: string, probe: Session, socksReply: Result<string, string>): Probe
  {
    var control := GetControlPort(files, directory);
    if control == -1 then NotRunning
    else
      match Open(control, probe)
      case Fail(e) => if e.IOError? then NotRunning else Broken(e)
      case Pass =>
        match socksReply
        case Err(_) => NotRunning
        case Ok(reply) =>
          match SocksPort(reply)
          case Ok(socks) => Reused(control, socks)
          case Err(e) => Broken(e)
  }

  /** The catch block: destroy the process if one was spawned, delete the record, publish FAILURE. */
  function Abort(published: seq<Update>, files: FileStore, directory: string, spawned: bool, e: Exception): Run
  {
    Run(published + [Update(FAILURE, MessageOf(e))], files - {PortFile(directory)}, spawned, spawned)
  }

  /** Materializing: copy-if-absent of the executable, the torrc and the configuration, stopping at an IOException. */
  function Materialized(files: FileStore, directory: string, resources: Resources): (FileStore, Outcome<Exception>)
  {
    var (afterTor, tor) := Copied(files, TorFile(directory), resources.tor, true);
    if tor.Fail? then (afterTor, tor)
    else
      var (afterTorrc, torrc) := Copied(afterTor, TorrcFile(directory), resources.torrc, false);
      if torrc.Fail? then (afterTorrc, torrc)
      else Copied(afterTorrc, ConfigFile(directory), resources.p2p, false)
  }

  /** Where the control-port wait ends: the files, whether the record exists, the tick. */
  datatype PortWaitEnd = PortWaitEnd(files: FileStore, found: bool, tick: nat)

  /** The control-port wait from tick k with waited milliseconds spent. */
  function PortWait(files: FileStore, path: string, polls: seq<Tick<Option<seq<byte>>>>, k: nat, waited: nat): PortWaitEnd
    requires k <= |polls|
    requires waited + Elapsed(polls, k) >= ControlPortTimeout
    decreases |polls| - k
  {
    if waited >= ControlPortTimeout then PortWaitEnd(files, false, k)
    else
      var current := match polls[k].event { case Some(bytes) => files[path := bytes] case None => files };
      if path in current then PortWaitEnd(current, true, k)
      else PortWait(current, path, polls, k + 1, waited + polls[k].elapsed)
  }

  /** Why the bootstrap wait ends. */
  datatype BootStop = Done | TimedOut | Raised(cause: Exception)

  /** Where the bootstrap wait ends: the UPDATEs it published, why it stopped, the tick. */
  datatype BootWaitEnd = BootWaitEnd(updates: seq<Update>, stop: BootStop, tick: nat)

  /** What one turn of the bootstrap loop makes of a GETINFO status/bootstrap-phase reply. */
  datatype Reply = Completed | Unusable(cause: Exception) | Percent(percent: int)

  /**
   * A failed query raises its IOException; a reply starting with the marker ends the loop
   * before it is parsed; any other reply is parsed for its percentage, which may throw.
   */
  function Classify(reply: Result<string, string>): (r: Reply)
    ensures r == Completed <==> reply.Ok? && StartsWith(reply.value, DoneMarker)
    ensures r.Percent? ==> reply.Ok? && ParsePercent(reply.value) == Ok(r.percent)
    ensures reply.Err? ==> r == Unusable(IOError(reply.error))
    ensures reply.Ok? && !StartsWith(reply.value, DoneMarker) ==>
      r == match ParsePercent(reply.value) { case Ok(p) => Percent(p) case Err(e) => Unusable(e) }
  {
    match reply
    case Err(m) => Unusable(IOError(m))
    case Ok(notification) =>
      if StartsWith(notification, DoneMarker) then Completed
      else
        match ParsePercent(notification)
        case Err(e) => Unusable(e)
        case Ok(percent) => Percent(percent)
  }

  /** Ticks of equal length and equal sleeps add up to the same time. */
  lemma {:induction false} ElapsedAgrees<A, B>(a: seq<Tick<A>>, b: seq<Tick<B>>, k: nat)
    requires |a| == |b| && k <= |a|
    requires forall j :: 0 <= j < |a| ==> a[j].elapsed == b[j].elapsed
    decreases |a| - k
    ensures Elapsed(a, k) == Elapsed(b, k)
  {
    if k < |a| {
      ElapsedAgrees(a, b, k + 1);
    }
  }

  /** The replies of the bootstrap loop, each read the way the loop reads it, after the same sleeps. */
  function Classified(polls: seq<Tick<Result<string, string>>>): (replies: seq<Tick<Reply>>)
    ensures |replies| == |polls|
    ensures forall j :: 0 <= j < |polls| ==> replies[j].elapsed == polls[j].elapsed
    ensures Elapsed(replies, 0) == Elapsed(polls, 0)
  {
    if polls == [] then []
    else
      var replies := [Tick(Classify(polls[0].event), polls[0].elapsed)] + Classified(polls[1..]);
      ElapsedAgrees(polls, replies, 0);
      replies
  }

  /** The reply the loop makes of poll j. */
  lemma {:induction false} ClassifiedAt(polls: seq<Tick<Result<string, string>>>, j: nat)
    requires j < |polls|
    ensures Classified(polls)[j].event == Classify(polls[j].event)
  {
    if j > 0 {
      ClassifiedAt(polls[1..], j - 1);
    }
  }

  /** The bootstrap wait from tick k with waited milliseconds spent. */
  function BootWait(replies: seq<Tick<Reply>>, k: nat, waited: nat): BootWaitEnd
    requires k <= |replies|
    requires waited + Elapsed(replies, k) >= BootstrapTimeout
    decreases |replies| - k
  {
    if waited >= BootstrapTimeout then BootWaitEnd([], TimedOut, k)
    else
      match replies[k].event
      case Completed => BootWaitEnd([], Done, k)
      case Unusable(e) => BootWaitEnd([], Raised(e), k)
      case Percent(percent) =>
        var rest := BootWait(replies, k + 1, waited + replies[k].elapsed);
        BootWaitEnd([ProgressUpdate(percent)] + rest.updates, rest.stop, rest.tick)
  }

  /** StartTask.doInBackground. */
  function StartResult(files: FileStore, directory: string, env: StartEnv): Run
    requires Live(env)
  {
    match ProbeDaemon(files, directory, env.probe, env.probeSocks)
    case Reused(control, socks) =>
      Run([Update(SUCCESS, Plain(SuccessText(AlreadyRunning, control, socks)))], files, false, false)
    case Broken(e) => Abort([], files, directory, false, e)
    case NotRunning => FreshStart(files, directory, env)
  }

  /** A start without a live daemon: materialize, spawn, and go on. */
  function FreshStart(files: FileStore, directory: string, env: StartEnv): Run
    requires Live(env)
  {
    var (current, copied) := Materialized(files, directory, env.resources);
    if copied.Fail? then Abort([], current, directory, false, copied.error)
    else if env.exec.Fail? then Abort([], current, directory, false, IOError(env.exec.error))
    else Spawned(current, directory, env)
  }

  /** After a successful exec: both waits, authentication, and the SOCKS query. */
  function Spawned(files: FileStore, directory: string, env: StartEnv): Run
    requires Live(env)
  {
    var started := [Update(UPDATE, Plain(BootstrappingStarted))];
    var wait := PortWait(files, PortFile(directory), env.portPolls, 0, 0);
    if !wait.found then Abort(started, wait.files, directory, true, Timeout(NoControlPortFile))
    else
      var control := GetControlPort(wait.files, directory);
      if control == -1 then Abort(started, wait.files, directory, true, Timeout(UnreadableControlPortFile))
      else
        match Open(control, env.session)
        case Fail(e) => Abort(started, wait.files, directory, true, e)
        case Pass => Bootstrapped(wait.files, directory, control, env, started)
  }

  /** Authenticated on the control port: wait for bootstrapping and report the ports. */
  function Bootstrapped(files: FileStore, directory: string, control: int, env: StartEnv, started: seq<Update>): Run
    requires Live(env)
  {
    var boot := BootWait(Classified(env.bootPolls), 0, 0);
    var published := started + boot.updates;
    match boot.stop
    case TimedOut => Abort(published, files, directory, true, Timeout(NotBootstrapped))
    case Raised(e) => Abort(published, files, directory, true, e)
    case Done =>
      match env.socks
      case Err(m) => Abort(published, files, directory, true, IOError(m))
      case Ok(reply) =>
        match SocksPort(reply)
        case Err(e) => Abort(published, files, directory, true, e)
        case Ok(socks) =>
          Run(published + [Update(SUCCESS, Plain(SuccessText(BootstrappingDone, control, socks)))], files, true, false)
  }

  // ---------------------------------------------------------------- StartTask, as it runs

  /** The three copies of the materializing step, one after another. */
  method Materialize(files: FileStore, directory: string, resources: Resources)
    returns (files': FileStore, outcome: Outcome<Exception>)
    ensures (files', outcome) == Materialized(files, directory, resources)
  {
    files', outcome := Copy(files, TorFile(directory), resources.tor, true);
    if outcome.Fail? {
      return;
    }
    files', outcome := Copy(files', TorrcFile(directory), resources.torrc, false);
    if outcome.Fail? {
      return;
    }
    files', outcome := Copy(files', ConfigFile(directory), resources.p2p, false);
  }

  /** The first poll loop: wait until the control-port record exists or 50 seconds are spent. */
  method AwaitControlPort(files: FileStore, path: string, polls: seq<Tick<Option<seq<byte>>>>)
    returns (files': FileStore, present: bool)
    requires Elapsed(polls, 0) >= ControlPortTimeout
    ensures files' == PortWait(files, path, polls, 0, 0).files
    ensures present == PortWait(files, path, polls, 0, 0).found
  {
    files' := files;
    present := false;
    var waited: nat := 0;
    var tick: nat := 0;
    while waited < ControlPortTimeout
      invariant tick <= |polls|
      invariant waited + Elapsed(polls, tick) >= ControlPortTimeout
      invariant !present
      invariant PortWait(files, path, polls, 0, 0) == PortWait(files', path, polls, tick, waited)
      decreases |polls| - tick
    {
      var poll := polls[tick];
      if poll.event.Some? {
        files' := files'[path := poll.event.value];
      }
      present := path in files';
      if present {
        break;
      }
      waited := waited + poll.elapsed;
      tick := tick + 1;
    }
  }

  /**
   * The body of the bootstrap loop up to publishProgress: the reply to poll k ends the loop
   * when it starts with the marker, and is otherwise parsed for its percentage.
   */
  method ReadReply(polls: seq<Tick<Result<string, string>>>, k: nat) returns (reply: Reply)
    requires k < |polls|
    ensures reply == Classified(polls)[k].event
  {
    ClassifiedAt(polls, k);
    var poll := polls[k];
    if poll.event.Err? {
      return Unusable(IOError(poll.event.error));
    }
    var notification := poll.event.value;
    if StartsWith(notification, DoneMarker) {
      return Completed;
    }
    var percent := ParsePercent(notification);
    if percent.Err? {
      return Unusable(percent.error);
    }
    return Percent(percent.value);
  }

  /** The second poll loop: query the bootstrap phase until it is done or 90 seconds are spent. */
  method AwaitBootstrap(polls: seq<Tick<Result<string, string>>>) returns (updates: seq<Update>, stop: BootStop)
    requires Elapsed(polls, 0) >= BootstrapTimeout
    ensures updates == BootWait(Classified(polls), 0, 0).updates
    ensures stop == BootWait(Classified(polls), 0, 0).stop
  {
    updates := [];
    var done := false;
    var waited: nat := 0;
    var tick: nat := 0;
    ghost var replies := Classified(polls);
    ghost var total := BootWait(replies, 0, 0);
    while waited < BootstrapTimeout
      invariant tick <= |polls|
      invariant waited + Elapsed(replies, tick) >= BootstrapTimeout
      invariant !done
      invariant total == Resumed(updates, BootWait(replies, tick, waited))
      decreases |polls| - tick
    {
      var poll := polls[tick];
      var reply := ReadReply(polls, tick);
      match reply
      case Unusable(e) =>
        assert updates + [] == updates;
        return updates, Raised(e);
      case Completed =>
        done := true;
        break;
      case Percent(percent) =>
        BootWaitAdvance(polls, tick, waited, updates, percent);
        updates := updates + [ProgressUpdate(percent)];
        waited := waited + poll.elapsed;
        tick := tick + 1;
    }
    assert done || total == BootWaitEnd(updates + [], TimedOut, tick);
    assert updates + [] == updates;
    stop := if done then Done else TimedOut;
  }

  /** A turn of the loop that reads a percentage, stated over the polls themselves. */
  lemma BootWaitAdvance(polls: seq<Tick<Result<string, string>>>, k: nat, waited: nat, updates: seq<Update>, percent: int)
    requires k < |polls| && waited < BootstrapTimeout
    requires waited + Elapsed(Classified(polls), k) >= BootstrapTimeout
    requires Classified(polls)[k].event == Percent(percent)
    ensures waited + polls[k].elapsed + Elapsed(Classified(polls), k + 1) >= BootstrapTimeout
    ensures Resumed(updates, BootWait(Classified(polls), k, waited)) ==
            Resumed(updates + [ProgressUpdate(percent)], BootWait(Classified(polls), k + 1, waited + polls[k].elapsed))
  {
    var replies := Classified(polls);
    assert replies[k].elapsed == polls[k].elapsed;
    BootWaitStep(replies, k, waited, updates, percent);
  }

  /** One turn of the bootstrap wait that publishes a progress update after those already published. */
  lemma BootWaitStep(replies: seq<Tick<Reply>>, k: nat, waited: nat, published: seq<Update>, percent: int)
    requires k < |replies| && waited < BootstrapTimeout
    requires waited + Elapsed(replies, k) >= BootstrapTimeout
    requires replies[k].event == Percent(percent)
    ensures waited + replies[k].elapsed + Elapsed(replies, k + 1) >= BootstrapTimeout
    ensures Resumed(published, BootWait(replies, k, waited)) ==
            Resumed(published + [ProgressUpdate(percent)], BootWait(replies, k + 1, waited + replies[k].elapsed))
  {
    var rest := BootWait(replies, k + 1, waited + replies[k].elapsed);
    assert published + ([ProgressUpdate(percent)] + rest.updates) == (published + [ProgressUpdate(percent)]) + rest.updates;
  }

  /** The rest of a wait, after updates already published. */
  function Resumed(published: seq<Update>, rest: BootWaitEnd): BootWaitEnd
  {
    BootWaitEnd(published + rest.updates, rest.stop, rest.tick)
  }

  /** StartTask.doInBackground, step by step. */
  method StartTask(files: FileStore, directory: string, env: StartEnv) returns (run: Run)
    requires Live(env)
    ensures run == StartResult(files, directory, env)
  {
    // Check if Tor is already running.
    var probe := ProbeDaemon(files, directory, env.probe, env.probeSocks);
    if probe.Reused? {
      return Run([Update(SUCCESS, Plain(SuccessText(AlreadyRunning, probe.control, probe.socks)))], files, false, false);
    }
    if probe.Broken? {
      return Abort([], files, directory, false, probe.cause);
    }
    assert StartResult(files, directory, env) == FreshStart(files, directory, env);
    var current, copied := Materialize(files, directory, env.resources);
    if copied.Fail? {
      return Abort([], current, directory, false, copied.error);
    }
    if env.exec.Fail? {
      return Abort([], current, directory, false, IOError(env.exec.error));
    }
    assert FreshStart(files, directory, env) == Spawned(current, directory, env);
    ghost var materialized := current;
    var published := [Update(UPDATE, Plain(BootstrappingStarted))];
    var present;
    current, present := AwaitControlPort(current, PortFile(directory), env.portPolls);
    if !present {
      return Abort(published, current, directory, true, Timeout(NoControlPortFile));
    }
    var control := GetControlPort(current, directory);
    if control == -1 {
      return Abort(published, current, directory, true, Timeout(UnreadableControlPortFile));
    }
    var connection := Open(control, env.session);
    if connection.Fail? {
      return Abort(published, current, directory, true, connection.error);
    }
    assert Spawned(materialized, directory, env) == Bootstrapped(current, directory, control, env, published);
    var updates, stop := AwaitBootstrap(env.bootPolls);
    published := published + updates;
    if stop.TimedOut? {
      return Abort(published, current, directory, true, Timeout(NotBootstrapped));
    }
    if stop.Raised? {
      return Abort(published, current, directory, true, stop.cause);
    }
    if env.socks.Err? {
      return Abort(published, current, directory, true, IOError(env.socks.error));
    }
    var socks := SocksPort(env.socks.value);
    if socks.Err? {
      return Abort(published, current, directory, true, socks.error);
    }
    published := published + [Update(SUCCESS, Plain(SuccessText(BootstrappingDone, control, socks.value)))];
    return Run(published, current, true, false);
  }

  // ---------------------------------------------------------------- StopTask

  /** What StopTask receives from outside: the control connection and the shutdown command. */
  datatype StopEnv = StopEnv(session: Session, shutdown: Outcome<string>)

  /**
   * StopTask.doInBackground: shutdown(getControlPort()), then SUCCESS; any exception, including
   * the one Socket raises for the port -1 of a missing record, gives FAILURE.
   */
  function StopTask(files: FileStore, directory: string, env: StopEnv): (u: Update)
    ensures u.result == SUCCESS || u.result == FAILURE
    ensures u.result == SUCCESS <==>
      0 <= GetControlPort(files, directory) <= MaxPort &&
      env.session.connect.Pass? && env.session.authenticate.Pass? && env.shutdown.Pass?
  {
    var port := GetControlPort(files, directory);
    match Open(port, env.session)
    case Fail(e) => Update(FAILURE, MessageOf(e))
    case Pass =>
      match env.shutdown
      case Fail(m) => Update(FAILURE, MessageOf(IOError(m)))
      case Pass => Update(SUCCESS, Plain(ShutdownSignaled))
  }
}
