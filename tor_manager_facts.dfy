/**
 * Properties of the TorManager model: the parsers against the formats they read, the two poll
 * loops against their budgets, and the whole start and stop tasks against what they publish and
 * what they leave behind.
 */
module TorManagerFacts {
  import opened Wrappers
  import opened JavaLang
  import opened FileCopy
  import opened TorManager

  // ---------------------------------------------------------------- the listener

  /** Only the last update of a batch reaches the listener: what comes before it does not matter. */
  lemma OnlyLastUpdateDispatched(earlier: seq<Update>, batch: seq<Update>)
    requires batch != []
    ensures OnProgressUpdate(earlier + batch) == OnProgressUpdate(batch)
  {
    assert (earlier + batch)[|earlier + batch| - 1] == batch[|batch| - 1];
  }

  // ---------------------------------------------------------------- parsers

  /** The port record "<address>:<port>" gives back its port, whatever the address holds. */
  lemma ParsePortOfRecord(address: string, port: int)
    requires IntMin <= port <= IntMax
    ensures ParsePort(address + [Delimiter] + DecimalString(port)) == Ok(port)
  {
    var digits := DecimalString(port);
    var line := address + [Delimiter] + digits;
    DecimalStringPlain(port);
    forall j | |address| < j < |line| ensures line[j] != Delimiter {
      assert line[j] == digits[j - |address| - 1];
    }
    assert line[|address|] == Delimiter;
    var r := LastIndexOf(line, Delimiter);
    assert r == |address|;
    assert line[r + 1..] == digits;
    IntRoundTrip(port);
  }

  /** A line without ':' is parsed whole. */
  lemma ParsePortWholeLine(line: string)
    requires Delimiter !in line
    ensures ParsePort(line).Ok? <==> ParseInt(line).Some?
    ensures ParsePort(line).Ok? ==> ParsePort(line).value == ParseInt(line).value
  {
    assert LastIndexOf(line, Delimiter) == -1;
    assert line[0..] == line;
  }

  /** The first occurrence of p in s is at i. */
  predicate FirstMatch(s: string, p: string, i: int)
  {
    MatchAt(s, p, i) && forall j :: 0 <= j < i ==> !MatchAt(s, p, j)
  }

  /**
   * parsePercent reads from just after the first "PROGRESS=" up to the next space, and gives
   * Integer.valueOf of that text.
   */
  lemma ParsePercentReads(line: string, i: nat, digits: string, rest: string)
    requires FirstMatch(line, ProgressKey, i)
    requires line[i + |ProgressKey|..] == digits + " " + rest
    requires ' ' !in digits
    ensures ParsePercent(line) == if ParseInt(digits).Some? then Ok(ParseInt(digits).value) else Err(NumberFormat(digits))
  {
    assert IndexOf(line, ProgressKey, 0) == i;
    var start := i + |ProgressKey|;
    var end := start + |digits|;
    assert line[end] == ' ';
    assert MatchAt(line, " ", end);
    forall j | start <= j < end ensures !MatchAt(line, " ", j) {
      assert line[j] == digits[j - start];
    }
    assert IndexOf(line, " ", start) == end;
    assert line[start..end] == digits;
  }

  /** With no space after the reading point, substring throws: the line is not a progress report. */
  lemma ParsePercentNeedsSpace(line: string)
    requires forall j :: PercentStart(line) <= j < |line| ==> line[j] != ' '
    ensures ParsePercent(line) == Err(IndexOutOfBounds(PercentStart(line), -1, |line|))
  {
    forall j | PercentStart(line) <= j < |line| ensures !MatchAt(line, " ", j) {
      assert line[j..j + 1] == [line[j]];
    }
  }

  /** A reply without "PROGRESS=" is read from index 8, the position indexOf's -1 plus nine gives. */
  lemma ParsePercentWithoutKey(line: string)
    requires forall j :: 0 <= j ==> !MatchAt(line, ProgressKey, j)
    ensures PercentStart(line) == 8
  {
  }

  /** A bootstrap status reply of Tor's, with any percentage and any rest, gives its percentage. */
  lemma ParsePercentOfStatus(percent: int, tail: string)
    requires IntMin <= percent <= IntMax
    ensures ParsePercent("NOTICE BOOTSTRAP " + ProgressKey + DecimalString(percent) + " " + tail) == Ok(percent)
  {
    var head := "NOTICE BOOTSTRAP " + ProgressKey;
    var digits := DecimalString(percent);
    var line := head + digits + " " + tail;
    assert |head| == 26;
    assert line[17..26] == ProgressKey;
    assert '=' !in "NOTICE BOOTSTRAP PROGRESS";
    forall j | 0 <= j < 17 ensures !MatchAt(line, ProgressKey, j) {
      assert line[j + 8] == "NOTICE BOOTSTRAP PROGRESS"[j + 8];
      assert line[j..j + 9][8] == line[j + 8];
    }
    assert line[26..] == digits + " " + tail;
    DecimalStringPlain(percent);
    ParsePercentReads(line, 17, digits, tail);
    IntRoundTrip(percent);
  }

  // ---------------------------------------------------------------- the control-port record

  /** The bytes of a text of single-byte characters, as Tor writes its record. */
  function Encoded(text: string): (bytes: seq<byte>)
    requires forall i :: 0 <= i < |text| ==> text[i] as int < 256
    ensures |bytes| == |text|
  {
    seq(|text|, i requires 0 <= i < |text| => text[i] as int)
  }

  /**
   * getControlPort reads the record Tor writes, "<address>:<port>" and a line break, back as
   * its port, whatever follows the first line.
   */
  lemma GetControlPortOfRecord(files: FileStore, directory: string, address: string, port: int, rest: string)
    requires IntMin <= port <= IntMax
    requires NoLineBreak(address)
    requires forall i :: 0 <= i < |address| ==> address[i] as int < 256
    requires forall i :: 0 <= i < |rest| ==> rest[i] as int < 256
    requires PortFile(directory) in files
    requires files[PortFile(directory)] == Encoded(address + [Delimiter] + DecimalString(port) + "\n" + rest)
    ensures GetControlPort(files, directory) == port
  {
    var record := address + [Delimiter] + DecimalString(port);
    var text := record + "\n" + rest;
    DecimalStringPlain(port);
    forall i | 0 <= i < |text| ensures text[i] as int < 256 {
      if i < |address| {
        assert text[i] == address[i];
      } else if i > |record| {
        assert text[i] == rest[i - |record| - 1];
      } else if |address| < i < |record| {
        assert text[i] == DecimalString(port)[i - |address| - 1];
      }
    }
    assert Latin1(Encoded(text)) == text;
    forall i | 0 <= i < |record| ensures !IsLineBreak(record[i]) {
      if i > |address| {
        assert record[i] == DecimalString(port)[i - |address| - 1];
      }
    }
    ReadTerminatedLine(record, rest);
    ParsePortOfRecord(address, port);
  }

  /** Without a record there is no port: -1, and nothing is thrown. */
  lemma GetControlPortWithoutRecord(files: FileStore, directory: string)
    requires PortFile(directory) !in files || files[PortFile(directory)] == []
    ensures GetControlPort(files, directory) == -1
  {
  }

  // ---------------------------------------------------------------- paths

  /** Different base directories give different working directories. */
  lemma WorkingDirectoryInjective(a: string, b: string)
    requires WorkingDirectory(a) == WorkingDirectory(b)
    ensures a == b
  {
    assert |a| == |b|;
    assert a == WorkingDirectory(a)[..|a|];
    assert b == WorkingDirectory(b)[..|b|];
  }

  /** The four files of the working directory are four different paths. */
  lemma PathsDistinct(directory: string)
    ensures PortFile(directory) != TorFile(directory) && PortFile(directory) != TorrcFile(directory)
    ensures PortFile(directory) != ConfigFile(directory)
    ensures TorFile(directory) != TorrcFile(directory) && TorFile(directory) != ConfigFile(directory)
    ensures TorrcFile(directory) != ConfigFile(directory)
  {
  }

  // ---------------------------------------------------------------- materializing

  /** Materializing writes only the executable, the torrc and the configuration. */
  lemma MaterializedWritesOnlyItsFiles(files: FileStore, directory: string, resources: Resources, p: string)
    requires p != TorFile(directory) && p != TorrcFile(directory) && p != ConfigFile(directory)
    ensures var after := Materialized(files, directory, resources).0;
            (p in after <==> p in files) && (p in files ==> after[p] == files[p])
  {
  }

  /** Once materializing succeeded, doing it again, from any resources, changes nothing. */
  lemma MaterializedIdempotent(files: FileStore, directory: string, first: Resources, second: Resources)
    requires Materialized(files, directory, first).1.Pass?
    ensures var after := Materialized(files, directory, first).0;
            Materialized(after, directory, second) == (after, Pass)
  {
    var (afterTor, _) := Copied(files, TorFile(directory), first.tor, true);
    var (afterTorrc, _) := Copied(afterTor, TorrcFile(directory), first.torrc, false);
    var after := Materialized(files, directory, first).0;
    assert after == Copied(afterTorrc, ConfigFile(directory), first.p2p, false).0;
    assert TorFile(directory) in afterTorrc && TorrcFile(directory) in afterTorrc;
    assert TorFile(directory) in after && TorrcFile(directory) in after && ConfigFile(directory) in after;
    CopyExistingIsNoOp(after, TorFile(directory), second.tor, true);
    CopyExistingIsNoOp(after, TorrcFile(directory), second.torrc, false);
    CopyExistingIsNoOp(after, ConfigFile(directory), second.p2p, false);
  }

  // ---------------------------------------------------------------- the poll loops

  /** The milliseconds ticks k up to t add to waited. */
  function Spent<E>(ticks: seq<Tick<E>>, k: nat, t: nat): nat
    requires k <= t <= |ticks|
    decreases t - k
  {
    if k == t then 0 else ticks[k].elapsed + Spent(ticks, k + 1, t)
  }

  /**
   * The control-port wait ends at the first tick at which the record exists, within budget, or
   * at the first at which the budget is spent; in the second case Tor wrote nothing meanwhile.
   * Only the record is ever written.
   */
  lemma {:induction false} PortWaitEnds(files: FileStore, path: string, polls: seq<Tick<Option<seq<byte>>>>, k: nat, waited: nat)
    requires k <= |polls|
    requires waited + Elapsed(polls, k) >= ControlPortTimeout
    decreases |polls| - k
    ensures var end := PortWait(files, path, polls, k, waited);
            k <= end.tick <= |polls| && end.files - {path} == files - {path}
    ensures var end := PortWait(files, path, polls, k, waited);
            end.found ==>
              end.tick < |polls| && path in end.files && waited + Spent(polls, k, end.tick) < ControlPortTimeout
    ensures var end := PortWait(files, path, polls, k, waited);
            !end.found ==>
              end.files == files && (waited < ControlPortTimeout ==> path !in files) &&
              waited + Spent(polls, k, end.tick) >= ControlPortTimeout &&
              forall j :: k <= j < end.tick ==> polls[j].event.None?
  {
    if waited < ControlPortTimeout {
      var current := match polls[k].event { case Some(bytes) => files[path := bytes] case None => files };
      if path !in current {
        PortWaitEnds(current, path, polls, k + 1, waited + polls[k].elapsed);
      }
    }
  }

  /** A record left over from an earlier run ends the wait at once. */
  lemma PortWaitSeesStaleRecord(files: FileStore, path: string, polls: seq<Tick<Option<seq<byte>>>>)
    requires Elapsed(polls, 0) >= ControlPortTimeout
    requires path in files
    ensures PortWait(files, path, polls, 0, 0).found && PortWait(files, path, polls, 0, 0).tick == 0
  {
  }

  /**
   * The bootstrap wait publishes one UPDATE per reply before the last, in order, each
   * carrying that reply's percentage.
   */
  lemma {:induction false} BootWaitUpdates(replies: seq<Tick<Reply>>, k: nat, waited: nat)
    requires k <= |replies|
    requires waited + Elapsed(replies, k) >= BootstrapTimeout
    decreases |replies| - k
    ensures var end := BootWait(replies, k, waited);
            k <= end.tick <= |replies| && |end.updates| == end.tick - k
    ensures var end := BootWait(replies, k, waited);
            forall j :: k <= j < end.tick ==> replies[j].event.Percent?
    ensures var end := BootWait(replies, k, waited);
            forall j :: k <= j < end.tick ==> end.updates[j - k] == ProgressUpdate(replies[j].event.percent)
  {
    if waited < BootstrapTimeout && replies[k].event.Percent? {
      var next := waited + replies[k].elapsed;
      BootWaitUpdates(replies, k + 1, next);
      var rest := BootWait(replies, k + 1, next);
      var end := BootWait(replies, k, waited);
      forall j | k < j < end.tick
        ensures end.updates[j - k] == ProgressUpdate(replies[j].event.percent)
      {
        assert end.updates[j - k] == rest.updates[j - (k + 1)];
      }
    }
  }

  /** So everything the bootstrap wait publishes is an UPDATE. */
  lemma BootWaitPublishesUpdates(replies: seq<Tick<Reply>>)
    requires Elapsed(replies, 0) >= BootstrapTimeout
    ensures forall i :: 0 <= i < |BootWait(replies, 0, 0).updates| ==> BootWait(replies, 0, 0).updates[i].result == UPDATE
  {
    BootWaitUpdates(replies, 0, 0);
    var end := BootWait(replies, 0, 0);
    forall i | 0 <= i < |end.updates| ensures end.updates[i].result == UPDATE {
      assert end.updates[i - 0] == ProgressUpdate(replies[i].event.percent);
    }
  }

  /**
   * The bootstrap wait ends Done only on a reply starting with the marker, within budget;
   * TimedOut only once the budget is spent; Raised on a failed query or an unparseable reply,
   * within budget.
   */
  lemma {:induction false} BootWaitStops(replies: seq<Tick<Reply>>, k: nat, waited: nat)
    requires k <= |replies|
    requires waited + Elapsed(replies, k) >= BootstrapTimeout
    decreases |replies| - k
    ensures var end := BootWait(replies, k, waited);
            k <= end.tick <= |replies| &&
            (end.stop == Done ==>
              end.tick < |replies| && replies[end.tick].event == Completed &&
              waited + Spent(replies, k, end.tick) < BootstrapTimeout) &&
            (end.stop == TimedOut ==> waited + Spent(replies, k, end.tick) >= BootstrapTimeout) &&
            (end.stop.Raised? ==>
              end.tick < |replies| && replies[end.tick].event == Unusable(end.stop.cause) &&
              waited + Spent(replies, k, end.tick) < BootstrapTimeout)
  {
    if waited < BootstrapTimeout && replies[k].event.Percent? {
      BootWaitStops(replies, k + 1, waited + replies[k].elapsed);
    }
  }

  /**
   * Bootstrapping completes only on a reply that starts with the marker, and every reply
   * before it was a progress report with a parseable percentage.
   */
  lemma BootstrapDoneOnlyOnMarker(polls: seq<Tick<Result<string, string>>>)
    requires Elapsed(polls, 0) >= BootstrapTimeout
    requires BootWait(Classified(polls), 0, 0).stop == Done
    ensures var t := BootWait(Classified(polls), 0, 0).tick;
            t < |polls| && polls[t].event.Ok? && StartsWith(polls[t].event.value, DoneMarker) &&
            Spent(polls, 0, t) < BootstrapTimeout &&
            forall j :: 0 <= j < t ==>
              polls[j].event.Ok? && !StartsWith(polls[j].event.value, DoneMarker) && ParsePercent(polls[j].event.value).Ok?
  {
    var replies := Classified(polls);
    BootWaitStops(replies, 0, 0);
    BootWaitUpdates(replies, 0, 0);
    var t := BootWait(replies, 0, 0).tick;
    SpentAgrees(polls, replies, 0, t);
    ClassifiedAt(polls, t);
    forall j | 0 <= j < t
      ensures polls[j].event.Ok? && !StartsWith(polls[j].event.value, DoneMarker) && ParsePercent(polls[j].event.value).Ok?
    {
      ClassifiedAt(polls, j);
      PercentReply(polls[j].event);
    }
  }

  /** A reply the loop takes for a progress report has no marker and parses. */
  lemma PercentReply(reply: Result<string, string>)
    requires Classify(reply).Percent?
    ensures reply.Ok? && !StartsWith(reply.value, DoneMarker) && ParsePercent(reply.value).Ok?
  {
  }

  lemma {:induction false} SpentAgrees<A, B>(a: seq<Tick<A>>, b: seq<Tick<B>>, k: nat, t: nat)
    requires |a| == |b| && k <= t <= |a|
    requires forall j :: 0 <= j < |a| ==> a[j].elapsed == b[j].elapsed
    decreases t - k
    ensures Spent(a, k, t) == Spent(b, k, t)
  {
    if k < t {
      SpentAgrees(a, b, k + 1, t);
    }
  }

  // ---------------------------------------------------------------- StartTask

  /** Every start publishes zero or more UPDATEs and then exactly one SUCCESS or FAILURE. */
  predicate Finished(published: seq<Update>)
  {
    |published| >= 1 &&
    (published[|published| - 1].result == SUCCESS || published[|published| - 1].result == FAILURE) &&
    forall i :: 0 <= i < |published| - 1 ==> published[i].result == UPDATE
  }

  /** The last update of a run. */
  function Last(run: Run): Update
    requires run.published != []
  {
    run.published[|run.published| - 1]
  }

  /** The message reports a control port Socket accepts and some SOCKS port, under the prefix. */
  predicate ReportsPorts(message: Payload, prefix: string, control: int)
  {
    0 <= control <= MaxPort &&
    exists socks :: IntMin <= socks <= IntMax && message == Plain(SuccessText(prefix, control, socks))
  }

  /**
   * How every start ends: finished; after a FAILURE no record and the process destroyed exactly
   * when spawned; after a SUCCESS a live process, the record in place and the ports it holds
   * reported, and, when Tor was spawned, bootDone.
   */
  predicate WellEnded(run: Run, directory: string, bootDone: bool)
  {
    Finished(run.published) &&
    (Last(run).result == FAILURE ==> PortFile(directory) !in run.files && run.destroyed == run.spawned) &&
    (Last(run).result == SUCCESS ==>
      PortFile(directory) in run.files && !run.destroyed && (run.spawned ==> bootDone) &&
      ReportsPorts(Last(run).message, if run.spawned then BootstrappingDone else AlreadyRunning,
                   GetControlPort(run.files, directory)))
  }

  /** After a finished run, the listener's last call is success or failure. */
  lemma FinishedDispatch(published: seq<Update>)
    requires Finished(published)
    ensures OnProgressUpdate(published).Some? && !OnProgressUpdate(published).value.Progressed?
  {
  }

  lemma AbortWellEnded(published: seq<Update>, files: FileStore, directory: string, spawned: bool, e: Exception, bootDone: bool)
    requires forall i :: 0 <= i < |published| ==> published[i].result == UPDATE
    ensures WellEnded(Abort(published, files, directory, spawned, e), directory, bootDone)
  {
  }

  lemma BootstrappedWellEnded(files: FileStore, directory: string, control: int, env: StartEnv, started: seq<Update>)
    requires Live(env)
    requires forall i :: 0 <= i < |started| ==> started[i].result == UPDATE
    requires PortFile(directory) in files && control == GetControlPort(files, directory) && 0 <= control <= MaxPort
    ensures WellEnded(Bootstrapped(files, directory, control, env, started), directory, BootWait(Classified(env.bootPolls), 0, 0).stop == Done)
  {
    BootWaitPublishesUpdates(Classified(env.bootPolls));
    var boot := BootWait(Classified(env.bootPolls), 0, 0);
    var published := started + boot.updates;
    forall i | 0 <= i < |published| ensures published[i].result == UPDATE {
      if i >= |started| {
        assert published[i] == boot.updates[i - |started|];
      }
    }
    match boot.stop
    case TimedOut => AbortWellEnded(published, files, directory, true, Timeout(NotBootstrapped), false);
    case Raised(e) => AbortWellEnded(published, files, directory, true, e, false);
    case Done =>
      match env.socks
      case Err(m) => AbortWellEnded(published, files, directory, true, IOError(m), true);
      case Ok(reply) =>
        match SocksPort(reply)
        case Err(e) => AbortWellEnded(published, files, directory, true, e, true);
        case Ok(socks) => ReportedWellEnded(published, files, directory, control, socks);
  }

  /** A spawned run that publishes the ports after its updates ends well. */
  lemma ReportedWellEnded(published: seq<Update>, files: FileStore, directory: string, control: int, socks: int)
    requires forall i :: 0 <= i < |published| ==> published[i].result == UPDATE
    requires PortFile(directory) in files && control == GetControlPort(files, directory) && 0 <= control <= MaxPort
    requires IntMin <= socks <= IntMax
    ensures WellEnded(Run(published + [Update(SUCCESS, Plain(SuccessText(BootstrappingDone, control, socks)))], files, true, false),
                      directory, true)
  {
    var run := Run(published + [Update(SUCCESS, Plain(SuccessText(BootstrappingDone, control, socks)))], files, true, false);
    assert Last(run).message == Plain(SuccessText(BootstrappingDone, control, socks));
    forall i | 0 <= i < |run.published| - 1 ensures run.published[i].result == UPDATE {
      assert run.published[i] == published[i];
    }
  }

  lemma SpawnedWellEnded(files: FileStore, directory: string, env: StartEnv)
    requires Live(env)
    ensures WellEnded(Spawned(files, directory, env), directory, BootWait(Classified(env.bootPolls), 0, 0).stop == Done)
  {
    var started := [Update(UPDATE, Plain(BootstrappingStarted))];
    var wait := PortWait(files, PortFile(directory), env.portPolls, 0, 0);
    var control := GetControlPort(wait.files, directory);
    if wait.found && control != -1 && Open(control, env.session).Pass? {
      BootstrappedWellEnded(wait.files, directory, control, env, started);
    }
  }

  lemma FreshStartWellEnded(files: FileStore, directory: string, env: StartEnv)
    requires Live(env)
    ensures WellEnded(FreshStart(files, directory, env), directory, BootWait(Classified(env.bootPolls), 0, 0).stop == Done)
  {
    var (current, copied) := Materialized(files, directory, env.resources);
    if copied.Pass? && env.exec.Pass? {
      SpawnedWellEnded(current, directory, env);
    }
  }

  lemma StartWellEnded(files: FileStore, directory: string, env: StartEnv)
    requires Live(env)
    ensures WellEnded(StartResult(files, directory, env), directory, BootWait(Classified(env.bootPolls), 0, 0).stop == Done)
  {
    match ProbeDaemon(files, directory, env.probe, env.probeSocks)
    case Reused(control, socks) =>
      var run := StartResult(files, directory, env);
      assert Last(run).message == Plain(SuccessText(AlreadyRunning, control, socks));
    case Broken(e) =>
    case NotRunning =>
      FreshStartWellEnded(files, directory, env);
  }

  /**
   * A start ends with one SUCCESS or FAILURE after UPDATEs only, so the listener's last call is
   * success or failure, never update.
   */
  lemma StartFinishes(files: FileStore, directory: string, env: StartEnv)
    requires Live(env)
    ensures Finished(StartResult(files, directory, env).published)
    ensures var n := OnProgressUpdate(StartResult(files, directory, env).published);
            n.Some? && !n.value.Progressed?
  {
    StartWellEnded(files, directory, env);
    FinishedDispatch(StartResult(files, directory, env).published);
  }

  /**
   * A failed start leaves no control-port record and has destroyed the process exactly when it
   * had spawned one; a successful start leaves the process alive and the record in place.
   */
  lemma StartCleansUp(files: FileStore, directory: string, env: StartEnv)
    requires Live(env)
    ensures var run := StartResult(files, directory, env);
            run.published != [] &&
            (Last(run).result == FAILURE ==> PortFile(directory) !in run.files && run.destroyed == run.spawned) &&
            (Last(run).result == SUCCESS ==> PortFile(directory) in run.files && !run.destroyed)
  {
    StartWellEnded(files, directory, env);
  }

  /**
   * When the recorded daemon answers on its control port and reports its SOCKS port, the start
   * publishes exactly "Tor already running:<control>:<socks>", spawns nothing and changes no file.
   */
  lemma StartReusesRunningDaemon(files: FileStore, directory: string, env: StartEnv, socks: int)
    requires Live(env)
    requires 0 <= GetControlPort(files, directory) <= MaxPort
    requires env.probe.connect.Pass? && env.probe.authenticate.Pass?
    requires env.probeSocks.Ok? && SocksPort(env.probeSocks.value) == Ok(socks)
    ensures var run := StartResult(files, directory, env);
            run.published == [Update(SUCCESS, Plain(SuccessText(AlreadyRunning, GetControlPort(files, directory), socks)))] &&
            run.files == files && !run.spawned && !run.destroyed
  {
  }

  /**
   * An IOException of the probe, or no usable record, means a fresh start; a record whose port
   * Socket rejects escapes the probe and fails the start before anything is spawned.
   */
  lemma StartProbe(files: FileStore, directory: string, env: StartEnv)
    requires Live(env)
    ensures var control := GetControlPort(files, directory);
            (control == -1 ||
             (0 <= control <= MaxPort &&
              (env.probe.connect.Fail? || env.probe.authenticate.Fail? || env.probeSocks.Err?)))
            ==> StartResult(files, directory, env) == FreshStart(files, directory, env)
    ensures var control := GetControlPort(files, directory);
            control != -1 && !(0 <= control <= MaxPort) ==>
              StartResult(files, directory, env) == Abort([], files, directory, false, IllegalPort(control))
  {
  }

  /**
   * A successful start reports the control port it leaves on record and a SOCKS port, under one
   * of the two prefixes; when it spawned Tor, the bootstrap wait saw the done marker.
   */
  lemma StartSuccessReportsPorts(files: FileStore, directory: string, env: StartEnv)
    requires Live(env)
    requires StartResult(files, directory, env).published != []
    requires Last(StartResult(files, directory, env)).result == SUCCESS
    ensures var run := StartResult(files, directory, env);
            ReportsPorts(Last(run).message, if run.spawned then BootstrappingDone else AlreadyRunning,
                         GetControlPort(run.files, directory))
    ensures StartResult(files, directory, env).spawned ==> BootWait(Classified(env.bootPolls), 0, 0).stop == Done
  {
    StartWellEnded(files, directory, env);
  }

  /**
   * Starting again after a successful start, while the daemon answers, reuses it with the same
   * control port: nothing is spawned and no file changes.
   */
  lemma StartAgainReuses(files: FileStore, directory: string, env: StartEnv, again: StartEnv, socks: int)
    requires Live(env) && Live(again)
    requires StartResult(files, directory, env).published != []
    requires Last(StartResult(files, directory, env)).result == SUCCESS
    requires again.probe.connect.Pass? && again.probe.authenticate.Pass?
    requires again.probeSocks.Ok? && SocksPort(again.probeSocks.value) == Ok(socks)
    ensures var first := StartResult(files, directory, env);
            var second := StartResult(first.files, directory, again);
            second.published == [Update(SUCCESS, Plain(SuccessText(AlreadyRunning, GetControlPort(first.files, directory), socks)))] &&
            second.files == first.files && !second.spawned
  {
    StartSuccessReportsPorts(files, directory, env);
    StartReusesRunningDaemon(StartResult(files, directory, env).files, directory, again, socks);
  }

  /**
   * If Tor never writes its record and none is left over, the start times out on the first wait,
   * destroys the process and reports the control-port timeout.
   */
  lemma StartTimesOutWithoutRecord(files: FileStore, directory: string, env: StartEnv)
    requires Live(env)
    requires PortFile(directory) !in files
    requires Materialized(files, directory, env.resources).1.Pass? && env.exec.Pass?
    requires forall j :: 0 <= j < |env.portPolls| ==> env.portPolls[j].event.None?
    ensures var run := StartResult(files, directory, env);
            run.published == [Update(UPDATE, Plain(BootstrappingStarted)), Update(FAILURE, MessageOf(Timeout(NoControlPortFile)))] &&
            run.spawned && run.destroyed
  {
    var current := Materialized(files, directory, env.resources).0;
    PathsDistinct(directory);
    MaterializedWritesOnlyItsFiles(files, directory, env.resources, PortFile(directory));
    GetControlPortWithoutRecord(files, directory);
    PortWaitEnds(current, PortFile(directory), env.portPolls, 0, 0);
    PortWaitFindsOnlyWrites(current, PortFile(directory), env.portPolls, 0, 0);
  }

  /** With the record absent at the start, the wait finds it only at a tick where Tor wrote it. */
  lemma {:induction false} PortWaitFindsOnlyWrites(files: FileStore, path: string, polls: seq<Tick<Option<seq<byte>>>>, k: nat, waited: nat)
    requires k <= |polls|
    requires waited + Elapsed(polls, k) >= ControlPortTimeout
    requires path !in files
    decreases |polls| - k
    ensures var end := PortWait(files, path, polls, k, waited);
            end.found ==> end.tick < |polls| && polls[end.tick].event.Some?
  {
    if waited < ControlPortTimeout && polls[k].event.None? {
      PortWaitFindsOnlyWrites(files, path, polls, k + 1, waited + polls[k].elapsed);
    }
  }

  // ---------------------------------------------------------------- StopTask

  /** Without a control-port record, stopping asks Socket for port -1 and reports its refusal. */
  lemma StopWithoutRecordFails(files: FileStore, directory: string, env: StopEnv)
    requires PortFile(directory) !in files
    ensures StopTask(files, directory, env) == Update(FAILURE, MessageOf(IllegalPort(-1)))
  {
  }

  /** So stopping after a failed start fails too: the failed start deleted the record. */
  lemma StopAfterFailedStartFails(files: FileStore, directory: string, env: StartEnv, stop: StopEnv)
    requires Live(env)
    requires StartResult(files, directory, env).published != []
    requires Last(StartResult(files, directory, env)).result == FAILURE
    ensures StopTask(StartResult(files, directory, env).files, directory, stop) == Update(FAILURE, MessageOf(IllegalPort(-1)))
  {
    StartCleansUp(files, directory, env);
  }
}
