/**
 * What the two ClientService variants (the torp2p one and the ptp one) share: the message they
 * relay from the peer-to-peer library to the activity, the decoding of TorManager's success
 * message into the control and SOCKS ports, and the mailbox behind IncomingHandler and
 * receivedMessage: a queue of messages waiting for a client, and the client's Messenger.
 */
module ClientServiceCommon {
  import opened Wrappers
  import opened JavaLang
  import opened TorManager
  import opened FileCopy
  import opened TorManagerFacts

  /** The message types of the activity's messages that IncomingHandler handles. */
  const MSG_REGISTER_CLIENT: int := 1
  const MSG_UNREGISTER_CLIENT: int := 2

  /** A Java long. */
  type Long = n: int | LongMin <= n <= LongMax

  /**
   * A message received from the peer-to-peer library: its id, its text, and its sender's
   * Identifier, which is kept as its text (toString and the Identifier(String) constructor are
   * taken to be inverse).
   */
  datatype Message = Message(id: Long, content: string, identifier: string)

  /** A client's Messenger, known only by identity. */
  datatype Messenger = Messenger(id: nat)

  /** What the peer-to-peer library is created (or reconfigured) with. */
  datatype TorConfiguration = TorConfiguration(directory: string, controlPort: int, socksPort: int)

  // ---------------------------------------------------------------- the success message

  /**
   * The success listener's split of "<prefix>:<control>:<socks>": Integer.valueOf of the text
   * between the first and the second ':', and of the text after the second. substring throws
   * when there are fewer than two ':' (the second substring cannot throw once the first did not).
   */
  function DecodeSuccess(message: string): (r: Result<(int, int), Exception>)
    ensures r.Ok? ==> IntMin <= r.value.0 <= IntMax && IntMin <= r.value.1 <= IntMax
  {
    match Split(message)
    case Err(e) => Err(e)
    case Ok(fields) => Ports(fields.0, fields.1)
  }

  /**
   * The two substrings: from just after the first ':' up to the second, and everything after the
   * second (that one cannot throw once the first did not).
   */
  function Split(message: string): Result<(string, string), Exception>
  {
    var start := IndexOf(message, [Delimiter], 0) + 1;
    var middle := IndexOf(message, [Delimiter], start) + 1;
    match Substring(message, start, middle - 1)
    case Err(e) => Err(e)
    case Ok(control) =>
      match Substring(message, middle, |message|)
      case Err(e) => Err(e)
      case Ok(socks) => Ok((control, socks))
  }

  /** A message without ':' does not decode. */
  lemma DecodeNeedsDelimiter(message: string)
    requires Delimiter !in message
    ensures DecodeSuccess(message).Err?
  {
    NoDelimiterFound(message, 0);
    assert IndexOf(message, [Delimiter], IndexOf(message, [Delimiter], 0) + 1) == -1 by {
      NoDelimiterFound(message, 1);
    }
  }

  /** indexOf(":") finds nothing in a text without ':'. */
  lemma NoDelimiterFound(s: string, from: int)
    requires Delimiter !in s
    ensures IndexOf(s, [Delimiter], from) == -1
  {
    forall k | 0 <= k < |s| ensures !MatchAt(s, [Delimiter], k) {
      assert s[k] in s;
      assert k + 1 <= |s| ==> s[k..k + 1][0] == s[k];
    }
  }

  /** Integer.valueOf of the control text, then of the SOCKS text. */
  function Ports(control: string, socks: string): (r: Result<(int, int), Exception>)
    ensures r.Ok? <==> ParseInt(control).Some? && ParseInt(socks).Some?
    ensures r.Ok? ==> r.value == (ParseInt(control).value, ParseInt(socks).value)
  {
    match ParseInt(control)
    case None => Err(NumberFormat(control))
    case Some(c) =>
      match ParseInt(socks)
      case None => Err(NumberFormat(socks))
      case Some(s) => Ok((c, s))
  }

  /** The first ':' at or after from is at k. */
  lemma FirstDelimiter(s: string, from: nat, k: nat)
    requires from <= k < |s| && s[k] == Delimiter
    requires forall j :: from <= j < k ==> s[j] != Delimiter
    ensures IndexOf(s, [Delimiter], from) == k
  {
    assert MatchAt(s, [Delimiter], k) by { assert s[k..k + 1] == [s[k]]; }
    forall j | from <= j < k ensures !MatchAt(s, [Delimiter], j) {
      assert s[j..j + 1] == [s[j]];
    }
  }

  /** Where the two ':' of "<prefix>:<control>:<socks>" are, and what lies between and after them. */
  lemma SuccessFields(prefix: string, control: string, socks: string)
    requires Delimiter !in prefix && Delimiter !in control
    ensures var message := prefix + [Delimiter] + control + [Delimiter] + socks;
            var second := |prefix| + 1 + |control|;
            IndexOf(message, [Delimiter], 0) == |prefix| &&
            IndexOf(message, [Delimiter], |prefix| + 1) == second &&
            message[|prefix| + 1..second] == control && message[second + 1..|message|] == socks
  {
    var message := prefix + [Delimiter] + control + [Delimiter] + socks;
    var first := |prefix|;
    var second := |prefix| + 1 + |control|;
    forall j | 0 <= j < first ensures message[j] != Delimiter {
      assert message[j] == prefix[j];
    }
    FirstDelimiter(message, 0, first);
    forall j | first + 1 <= j < second ensures message[j] != Delimiter {
      assert message[j] == control[j - first - 1];
    }
    FirstDelimiter(message, first + 1, second);
    assert message[first + 1..second] == control;
    assert message[second + 1..|message|] == socks;
  }

  /** With the first two ':' of a message at first and second, the fields are what lies between and after them. */
  lemma SplitAt(message: string, first: nat, second: nat)
    requires first < second < |message|
    requires IndexOf(message, [Delimiter], 0) == first
    requires IndexOf(message, [Delimiter], first + 1) == second
    ensures Split(message) == Ok((message[first + 1..second], message[second + 1..|message|]))
  {
    assert Substring(message, first + 1, second) == Ok(message[first + 1..second]);
    assert Substring(message, second + 1, |message|) == Ok(message[second + 1..|message|]);
  }

  /**
   * For a prefix and a control text without ':', the control port is read from between the
   * first and second ':' and the SOCKS port from everything after the second.
   */
  lemma DecodeSuccessSplits(prefix: string, control: string, socks: string)
    requires Delimiter !in prefix && Delimiter !in control
    ensures DecodeSuccess(prefix + [Delimiter] + control + [Delimiter] + socks) == Ports(control, socks)
  {
    var message := prefix + [Delimiter] + control + [Delimiter] + socks;
    assert Split(message) == Ok((control, socks)) by {
      SuccessFields(prefix, control, socks);
      SplitAt(message, |prefix|, |prefix| + 1 + |control|);
    }
  }

  /** Decoding takes back what TorManager's success message encodes, whatever the ':'-free prefix. */
  lemma DecodeSuccessRoundTrip(prefix: string, control: int, socks: int)
    requires Delimiter !in prefix
    requires IntMin <= control <= IntMax && IntMin <= socks <= IntMax
    ensures DecodeSuccess(SuccessText(prefix, control, socks)) == Ok((control, socks))
  {
    DecimalStringPlain(control);
    DecodeSuccessSplits(prefix, DecimalString(control), DecimalString(socks));
    IntRoundTrip(control);
    IntRoundTrip(socks);
  }

  /** A message reporting a control port under a ':'-free prefix decodes to that port. */
  lemma ReportedPortsDecode(message: Payload, prefix: string, control: int)
    requires ReportsPorts(message, prefix, control) && Delimiter !in prefix
    ensures message.Plain? && DecodeSuccess(message.text).Ok? && DecodeSuccess(message.text).value.0 == control
  {
    var socks :| IntMin <= socks <= IntMax && message == Plain(SuccessText(prefix, control, socks));
    DecodeSuccessRoundTrip(prefix, control, socks);
  }

  /** The success message of a start, whether it spawned the daemon or reused one, decodes to its port. */
  lemma SuccessPrefixDecodes(message: Payload, spawned: bool, control: int)
    requires ReportsPorts(message, if spawned then BootstrappingDone else AlreadyRunning, control)
    ensures message.Plain? && DecodeSuccess(message.text).Ok? && DecodeSuccess(message.text).value.0 == control
  {
    if spawned {
      assert Delimiter !in BootstrappingDone;
      ReportedPortsDecode(message, BootstrappingDone, control);
    } else {
      assert Delimiter !in AlreadyRunning;
      ReportedPortsDecode(message, AlreadyRunning, control);
    }
  }

  /**
   * Every start publishes something, and one that succeeds publishes a message from which both
   * services decode the control port that start left on record.
   */
  lemma StartSuccessDecodes(files: FileStore, directory: string, env: StartEnv)
    requires Live(env)
    ensures var run := StartResult(files, directory, env);
            run.published != [] &&
            (Last(run).result == SUCCESS ==>
              Last(run).message.Plain? &&
              DecodeSuccess(Last(run).message.text).Ok? &&
              DecodeSuccess(Last(run).message.text).value.0 == GetControlPort(run.files, directory))
  {
    StartFinishes(files, directory, env);
    if Last(StartResult(files, directory, env)).result == SUCCESS {
      StartSuccessReportsPorts(files, directory, env);
      SuccessPrefixDecodes(Last(StartResult(files, directory, env)).message, StartResult(files, directory, env).spawned,
                           GetControlPort(StartResult(files, directory, env).files, directory));
    }
  }

  // ---------------------------------------------------------------- the mailbox

  /**
   * receivedQueue and client of a ClientService. The ghost log handed holds every message
   * given to some client so far, in the order given, so that handed + queue is the stream of
   * messages the service has taken charge of.
   */
  class Mailbox {
    /** Messages waiting for a client, oldest first. */
    var queue: seq<Message>
    /** The registered client, or null. */
    var client: Option<Messenger>
    ghost var handed: seq<Message>

    /** The messages handed to clients and then those waiting, in the order received. */
    ghost function Stream(): seq<Message>
      reads this
    {
      handed + queue
    }

    /** While a client is registered, no message waits. */
    ghost predicate Drained()
      reads this
    {
      client.Some? ==> queue == []
    }

    constructor ()
      ensures queue == [] && client == None && handed == []
      ensures Drained()
    {
      queue := [];
      client := None;
      handed := [];
    }

    /**
     * IncomingHandler on MSG_REGISTER_CLIENT: send the waiting messages to replyTo, oldest
     * first, removing each only after its send went through. The send numbered failAt (if any)
     * throws RemoteException, which ends the handler with the rest still queued and the client
     * unchanged; otherwise the queue ends empty and replyTo becomes the client.
     */
    method Register(replyTo: Messenger, failAt: Option<nat>) returns (sent: seq<Message>)
      modifies this
      ensures sent + queue == old(queue)
      ensures handed == old(handed) + sent && Stream() == old(Stream())
      ensures failAt.None? || failAt.value >= |old(queue)| ==> queue == [] && client == Some(replyTo)
      ensures failAt.Some? && failAt.value < |old(queue)| ==> |sent| == failAt.value && client == old(client)
      ensures old(Drained()) ==> Drained()
    {
      sent := [];
      while queue != []
        invariant sent + queue == old(queue)
        invariant handed == old(handed) + sent && client == old(client)
        invariant failAt.Some? ==> failAt.value >= |sent|
        decreases |queue|
      {
        var element := queue[0];
        if failAt == Some(|sent|) {
          return;
        }
        sent := sent + [element];
        queue := queue[1..];
        handed := handed + [element];
      }
      client := Some(replyTo);
    }

    /** IncomingHandler on MSG_UNREGISTER_CLIENT: forget the client; the queue stays. */
    method Unregister()
      modifies this
      ensures client == None
      ensures queue == old(queue) && handed == old(handed)
      ensures Drained()
    {
      client := None;
    }

    /**
     * receivedMessage: without a client the message is queued; with one it is sent, and a
     * RemoteException (sendOk false) drops the client and the message.
     */
    method Received(m: Message, sendOk: bool) returns (forwarded: bool)
      modifies this
      ensures forwarded <==> old(client).Some? && sendOk
      ensures old(client).None? ==> queue == old(queue) + [m] && client == None && handed == old(handed)
      ensures old(client).Some? && sendOk ==> queue == old(queue) && client == old(client) && handed == old(handed) + [m]
      ensures old(client).Some? && !sendOk ==> queue == old(queue) && client == None && handed == old(handed)
      ensures old(Drained()) ==> Drained()
      ensures old(Drained()) && (old(client).None? || sendOk) ==> Stream() == old(Stream()) + [m]
    {
      if client.None? {
        queue := queue + [m];
        return false;
      }
      if sendOk {
        handed := handed + [m];
        return true;
      }
      client := None;
      return false;
    }

    /**
     * IncomingHandler.handleMessage: register (draining the queue) or unregister the client;
     * other message types go to the framework's handler and change nothing here.
     */
    method Handle(what: int, replyTo: Messenger, failAt: Option<nat>) returns (sent: seq<Message>)
      modifies this
      ensures what == MSG_REGISTER_CLIENT ==>
        sent + queue == old(queue) &&
        (failAt.None? || failAt.value >= |old(queue)| ==> queue == [] && client == Some(replyTo)) &&
        (failAt.Some? && failAt.value < |old(queue)| ==> |sent| == failAt.value && client == old(client))
      ensures what == MSG_UNREGISTER_CLIENT ==> sent == [] && client == None && queue == old(queue)
      ensures what != MSG_REGISTER_CLIENT && what != MSG_UNREGISTER_CLIENT ==>
        sent == [] && client == old(client) && queue == old(queue)
      ensures handed == old(handed) + sent && Stream() == old(Stream())
      ensures old(Drained()) ==> Drained()
    {
      sent := [];
      if what == MSG_REGISTER_CLIENT {
        sent := Register(replyTo, failAt);
      } else if what == MSG_UNREGISTER_CLIENT {
        Unregister();
      }
    }

    /** Replacing the queue by messages read back from storage (a new receivedQueue). */
    method Restore(elements: seq<Message>)
      modifies this
      ensures queue == elements && client == old(client) && handed == old(handed)
      ensures Drained() <==> client.None? || elements == []
    {
      queue := elements;
    }
  }
}
