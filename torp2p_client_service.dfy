/**
 * The torp2p ClientService: the Android service that starts Tor through TorManager, relays the
 * messages the peer-to-peer library receives to the bound activity (queueing them while none is
 * bound), saves the waiting messages to a file when it is destroyed and reads them back when the
 * library is started again, and tracks whether Tor runs in the torrunning flag.
 *
 * Files are text here: a map from path to content (FileWriter and FileReader's character
 * encoding is not modelled). The library, the Android framework and the Messenger transport are
 * outside the model; a send to a client either goes through or throws RemoteException.
 */
module TorP2PClientService {
  import opened Wrappers
  import opened JavaLang
  import opened TorManager
  import opened ClientServiceCommon

  /** The file the waiting messages are saved in. */
  const ReceivedFile: string := "received"
  /** File.separator. */
  const Separator: string := "/"

  type TextFiles = map<string, string>

  /** The path of fileName in workingDirectory. */
  function StoreFile(workingDirectory: string, fileName: string): string
  {
    workingDirectory + Separator + fileName
  }

  /** Java's string conversion of a possibly null string, as + applies it. */
  function JavaText(s: Option<string>): string
  {
    if s.None? then "null" else s.value
  }

  // ---------------------------------------------------------------- writeQueue

  /** The three lines writeQueue writes for a message: identifier, content and id. */
  function Record(m: Message): string
  {
    m.identifier + "\n" + m.content + "\n" + DecimalString(m.id) + "\n"
  }

  /** The text writeQueue writes for a queue: a record per message whose id is not banned, in order. */
  function Records(queue: seq<Message>, banned: set<Long>): string
  {
    if queue == [] then ""
    else (if queue[0].id in banned then "" else Record(queue[0])) + Records(queue[1..], banned)
  }

  /** The messages of a queue whose ids are not banned, in order. */
  function Allowed(queue: seq<Message>, banned: set<Long>): (kept: seq<Message>)
    ensures |kept| <= |queue|
    ensures forall i :: 0 <= i < |kept| ==> kept[i] in queue && kept[i].id !in banned
    ensures forall m :: m in queue && m.id !in banned ==> m in kept
  {
    if queue == [] then []
    else (if queue[0].id in banned then [] else [queue[0]]) + Allowed(queue[1..], banned)
  }

  /**
   * writeQueue: open the file (FileWriter, which throws an IOException when it cannot; the
   * handler then does nothing), then take every message off the queue, oldest first, writing
   * the record of each whose id is not banned, and close the file.
   */
  method WriteQueue(box: Mailbox, banned: set<Long>, files: TextFiles, workingDirectory: string, fileName: string,
                    open: Outcome<string>)
    returns (files': TextFiles)
    modifies box
    ensures open.Fail? ==> files' == files && box.queue == old(box.queue)
    ensures open.Pass? ==>
      box.queue == [] && files' == files[StoreFile(workingDirectory, fileName) := Records(old(box.queue), banned)]
    ensures box.client == old(box.client) && box.handed == old(box.handed)
  {
    if open.Fail? {
      return files;
    }
    var written := "";
    while box.queue != []
      invariant Records(old(box.queue), banned) == written + Records(box.queue, banned)
      invariant box.client == old(box.client) && box.handed == old(box.handed)
      decreases |box.queue|
    {
      var head := box.queue[0];
      var tail := box.queue[1..];
      assert Records(box.queue, banned) == (if head.id in banned then "" else Record(head)) + Records(tail, banned);
      if head.id !in banned {
        assert written + (Record(head) + Records(tail, banned)) == (written + Record(head)) + Records(tail, banned);
        written := written + Record(head);
      } else {
        assert "" + Records(tail, banned) == Records(tail, banned);
      }
      box.queue := tail;
    }
    assert written + Records(box.queue, banned) == written;
    files' := files[StoreFile(workingDirectory, fileName) := written];
  }

  // ---------------------------------------------------------------- readElements

  /** The messages read, and whether the loop ran to the end of the file. */
  datatype Loaded = Loaded(elements: seq<Message>, complete: bool)

  /** What was read before, followed by the rest of the read (an exception loses everything). */
  function Prepended(read: seq<Message>, rest: Result<Loaded, Exception>): Result<Loaded, Exception>
  {
    match rest
    case Err(e) => Err(e)
    case Ok(l) => Ok(Loaded(read + l.elements, l.complete))
  }

  /**
   * The loop of readElements over the characters not yet read, at its k-th turn: while any
   * remain, read an address, a content and an id line and add the message; Long.valueOf of a
   * missing (null) or malformed id throws NumberFormatException, which the method does not
   * catch. The turn numbered failAt (if any) raises an IOException, which ends the loop.
   */
  function Triples(rest: string, failAt: Option<nat>, k: nat): Result<Loaded, Exception>
    decreases |rest|
  {
    if rest == [] then Ok(Loaded([], true))
    else if failAt == Some(k) then Ok(Loaded([], false))
    else
      var address := ReadLine(rest);
      var content := ReadLine(address.1);
      var id := ReadLine(content.1);
      match id.0
      case None => Err(NullNumber)
      case Some(text) =>
        match ParseLong(text)
        case None => Err(NumberFormat(text))
        case Some(n) => Prepended([Message(n, content.0.value, address.0.value)], Triples(id.1, failAt, k + 1))
  }

  /**
   * readElements: the messages of the file and the files afterwards. A missing file gives no
   * messages; a file read to its end is deleted; an IOException gives the messages read so far
   * and keeps the file; a NumberFormatException escapes.
   */
  function ReadBack(files: TextFiles, path: string, failAt: Option<nat>): (TextFiles, Result<seq<Message>, Exception>)
  {
    if path !in files then (files, Ok([]))
    else
      match Triples(files[path], failAt, 0)
      case Err(e) => (files, Err(e))
      case Ok(l) => (if l.complete then files - {path} else files, Ok(l.elements))
  }

  lemma PrependedTwice(read: seq<Message>, m: Message, rest: Result<Loaded, Exception>)
    ensures Prepended(read, Prepended([m], rest)) == Prepended(read + [m], rest)
  {
    if rest.Ok? {
      assert read + ([m] + rest.value.elements) == (read + [m]) + rest.value.elements;
    }
  }

  /** One turn of the loop: three lines read, then the id parsed, or the exception it raises. */
  lemma TriplesStep(rest: string, failAt: Option<nat>, k: nat)
    requires rest != [] && failAt != Some(k)
    ensures var address := ReadLine(rest);
            var content := ReadLine(address.1);
            var id := ReadLine(content.1);
            address.0.Some? && (id.0.Some? ==> content.0.Some?) &&
            Triples(rest, failAt, k) ==
              if id.0.None? then Err(NullNumber)
              else if ParseLong(id.0.value).None? then Err(NumberFormat(id.0.value))
              else Prepended([Message(ParseLong(id.0.value).value, content.0.value, address.0.value)], Triples(id.1, failAt, k + 1))
  {
  }

  /** readElements, turn by turn. */
  method ReadElements(files: TextFiles, workingDirectory: string, fileName: string, failAt: Option<nat>)
    returns (files': TextFiles, elements: Result<seq<Message>, Exception>)
    ensures (files', elements) == ReadBack(files, StoreFile(workingDirectory, fileName), failAt)
  {
    var path := StoreFile(workingDirectory, fileName);
    if path !in files {
      return files, Ok([]);
    }
    ghost var whole := Triples(files[path], failAt, 0);
    var rest := files[path];
    var read: seq<Message> := [];
    var k: nat := 0;
    assert Prepended(read, whole) == whole by {
      if whole.Ok? {
        assert read + whole.value.elements == whole.value.elements;
      }
    }
    while rest != []
      invariant whole == Prepended(read, Triples(rest, failAt, k))
      decreases |rest|
    {
      if failAt == Some(k) {
        assert whole == Ok(Loaded(read + [], false));
        assert read + [] == read;
        return files, Ok(read);
      }
      TriplesStep(rest, failAt, k);
      var address := ReadLine(rest);
      var content := ReadLine(address.1);
      var id := ReadLine(content.1);
      if id.0.None? {
        return files, Err(NullNumber);
      }
      var n := ParseLong(id.0.value);
      if n.None? {
        return files, Err(NumberFormat(id.0.value));
      }
      var m := Message(n.value, content.0.value, address.0.value);
      PrependedTwice(read, m, Triples(id.1, failAt, k + 1));
      read := read + [m];
      rest := id.1;
      k := k + 1;
    }
    assert whole == Ok(Loaded(read + [], true));
    assert read + [] == read;
    return files - {path}, Ok(read);
  }

  // ---------------------------------------------------------------- the round trip

  /** Identifier and content hold no line break, so each stays one line in the file. */
  predicate Storable(m: Message)
  {
    NoLineBreak(m.identifier) && NoLineBreak(m.content)
  }

  /** The three lines of a record are read back as its fields, and reading resumes after them. */
  lemma ReadRecord(m: Message, rest: string)
    requires Storable(m)
    ensures var address := ReadLine(Record(m) + rest);
            var content := ReadLine(address.1);
            var id := ReadLine(content.1);
            address.0 == Some(m.identifier) && content.0 == Some(m.content) &&
            id == (Some(DecimalString(m.id)), rest) && ParseLong(DecimalString(m.id)) == Some(m.id)
  {
    var digits := DecimalString(m.id);
    DecimalStringPlain(m.id);
    assert NoLineBreak(digits) by {
      forall i | 0 <= i < |digits| ensures !IsLineBreak(digits[i]) {
        assert digits[i] in digits;
      }
    }
    var afterContent := digits + "\n" + rest;
    var afterAddress := m.content + "\n" + afterContent;
    assert Record(m) + rest == m.identifier + "\n" + afterAddress;
    ReadTerminatedLine(m.identifier, afterAddress);
    ReadTerminatedLine(m.content, afterContent);
    ReadTerminatedLine(digits, rest);
    LongRoundTrip(m.id);
  }

  /** What the loop gives for a list of messages when turn failAt (counting from k) fails. */
  function Cut(elements: seq<Message>, failAt: Option<nat>, k: nat): Loaded
  {
    if failAt.Some? && k <= failAt.value < k + |elements| then Loaded(elements[..failAt.value - k], false)
    else Loaded(elements, true)
  }

  /** Reading one stored record takes it off the front of what the rest of the file gives. */
  lemma TriplesOfRecord(m: Message, rest: string, failAt: Option<nat>, k: nat)
    requires Storable(m) && failAt != Some(k)
    ensures Triples(Record(m) + rest, failAt, k) == Prepended([m], Triples(rest, failAt, k + 1))
  {
    ReadRecord(m, rest);
    TriplesStep(Record(m) + rest, failAt, k);
  }

  /** Cutting a list whose first turn does not fail keeps its head. */
  lemma CutCons(m: Message, tail: seq<Message>, failAt: Option<nat>, k: nat)
    requires failAt.Some? ==> k < failAt.value
    ensures Cut([m] + tail, failAt, k) == Loaded([m] + Cut(tail, failAt, k + 1).elements, Cut(tail, failAt, k + 1).complete)
  {
    if failAt.Some? && k < failAt.value < k + 1 + |tail| {
      assert [m] + tail[..failAt.value - (k + 1)] == ([m] + tail)[..failAt.value - k];
    }
  }

  /**
   * Reading back what writeQueue wrote gives the messages that were not banned, in order; an
   * IOException at turn n gives the first n of them.
   */
  lemma {:induction false} TriplesOfRecords(queue: seq<Message>, banned: set<Long>, failAt: Option<nat>, k: nat)
    requires forall i :: 0 <= i < |queue| ==> Storable(queue[i])
    requires failAt.Some? ==> k <= failAt.value
    ensures Triples(Records(queue, banned), failAt, k) == Ok(Cut(Allowed(queue, banned), failAt, k))
  {
    if queue != [] {
      var m := queue[0];
      var rest := Records(queue[1..], banned);
      if m.id in banned {
        assert Records(queue, banned) == rest;
        assert Allowed(queue, banned) == Allowed(queue[1..], banned);
        TriplesOfRecords(queue[1..], banned, failAt, k);
      } else {
        assert Records(queue, banned) == Record(m) + rest;
        var allowed := Allowed(queue, banned);
        assert allowed == [m] + Allowed(queue[1..], banned);
        if failAt != Some(k) {
          assert failAt.Some? ==> k + 1 <= failAt.value;
          TriplesOfRecords(queue[1..], banned, failAt, k + 1);
          CutCons(m, Allowed(queue[1..], banned), failAt, k);
          TriplesOfRecord(m, rest, failAt, k);
        }
      }
    }
  }

  /** Nothing banned, nothing left out. */
  lemma {:induction false} AllowedAll(queue: seq<Message>)
    ensures Allowed(queue, {}) == queue
  {
    if queue != [] {
      AllowedAll(queue[1..]);
    }
  }

  /**
   * Round trip: readElements after writeQueue with nothing banned (as onDestroy calls it) gives
   * back the queue in order and deletes the file; an IOException at turn n gives the first n
   * messages and keeps the file.
   */
  lemma WriteQueueReadsBack(files: TextFiles, path: string, queue: seq<Message>, failAt: Option<nat>)
    requires forall i :: 0 <= i < |queue| ==> Storable(queue[i])
    ensures var (after, read) := ReadBack(files[path := Records(queue, {})], path, failAt);
            read == Ok(if failAt.Some? && failAt.value < |queue| then queue[..failAt.value] else queue) &&
            after == (if failAt.Some? && failAt.value < |queue| then files[path := Records(queue, {})] else files - {path})
  {
    AllowedAll(queue);
    TriplesOfRecords(queue, {}, failAt, 0);
    ReadBackStored(files, path, Records(queue, {}), failAt, Cut(queue, failAt, 0));
  }

  /** Banned ids are left out of what is read back, the others come back in order. */
  lemma BannedNotReadBack(files: TextFiles, path: string, queue: seq<Message>, banned: set<Long>)
    requires forall i :: 0 <= i < |queue| ==> Storable(queue[i])
    ensures ReadBack(files[path := Records(queue, banned)], path, None) == (files - {path}, Ok(Allowed(queue, banned)))
  {
    TriplesOfRecords(queue, banned, None, 0);
    ReadBackStored(files, path, Records(queue, banned), None, Loaded(Allowed(queue, banned), true));
  }

  /** Reading back a file just stored: the lines it holds, and the file deleted if read to its end. */
  lemma ReadBackStored(files: TextFiles, path: string, text: string, failAt: Option<nat>, loaded: Loaded)
    requires Triples(text, failAt, 0) == Ok(loaded)
    ensures ReadBack(files[path := text], path, failAt) ==
            (if loaded.complete then files - {path} else files[path := text], Ok(loaded.elements))
  {
    assert files[path := text] - {path} == files - {path};
  }

  // ---------------------------------------------------------------- the service

  /**
   * ClientService. The static flags running and torrunning are fields of the service object,
   * and so is the shared preference holding the working directory, savedDirectory. A new
   * service finds torrunning and the preference as earlier services in the process left them;
   * running is false again, since the earlier service's onDestroy cleared it. A stop listener
   * left behind by an earlier service clears the shared flag, which is StopSucceeded on the
   * current object. The TorP2P library object is known by the configuration it was given.
   */
  class ClientService {
    /** receivedQueue and client. */
    const mailbox: Mailbox
    var running: bool
    var torrunning: bool
    var torp2p: Option<TorConfiguration>
    var savedDirectory: Option<string>

    /**
     * A new service. torrunningBefore is the static flag as earlier services in the process
     * left it (false in a fresh process); preference is the working directory an earlier
     * service saved, if any.
     */
    constructor (torrunningBefore: bool, preference: Option<string>)
      ensures fresh(mailbox) && mailbox.queue == [] && mailbox.client == None && mailbox.handed == []
      ensures !running && torrunning == torrunningBefore && torp2p == None && savedDirectory == preference
    {
      mailbox := new Mailbox();
      running := false;
      torrunning := torrunningBefore;
      torp2p := None;
      savedDirectory := preference;
    }

    /** onCreate. */
    method OnCreate()
      modifies this
      ensures running
      ensures torrunning == old(torrunning) && torp2p == old(torp2p) && savedDirectory == old(savedDirectory)
    {
      running := true;
    }

    /**
     * startTor: nothing while Tor is taken to be running, nothing without a network connection;
     * otherwise TorManager.start is asked to start Tor, and its listener calls StartSucceeded or
     * StartFailed later.
     */
    method StartTor(connected: bool) returns (requested: bool)
      ensures requested <==> !torrunning && connected
      ensures torrunning ==> !requested
    {
      if torrunning {
        return false;
      }
      if !connected {
        return false;
      }
      return true;
    }

    /**
     * The start listener's success: torrunning becomes true, the ports are split out of the
     * message (an exception there escapes the listener), and the library is started in
     * workingDirectory (startTorP2P: save the directory, replace the queue by the messages read
     * back from the received file, create the library) or, when it exists, reconfigured.
     */
    method StartSucceeded(message: string, filesDir: string, files: TextFiles, failAt: Option<nat>)
      returns (files': TextFiles, crash: Option<Exception>)
      modifies this, mailbox
      ensures torrunning && running == old(running)
      ensures mailbox.client == old(mailbox.client) && mailbox.handed == old(mailbox.handed)
      ensures DecodeSuccess(message).Err? ==>
        crash == Some(DecodeSuccess(message).error) && files' == files &&
        torp2p == old(torp2p) && savedDirectory == old(savedDirectory) && mailbox.queue == old(mailbox.queue)
      ensures DecodeSuccess(message).Ok? && old(torp2p).Some? ==>
        var (control, socks) := DecodeSuccess(message).value;
        crash == None && files' == files && mailbox.queue == old(mailbox.queue) &&
        savedDirectory == old(savedDirectory) &&
        torp2p == Some(TorConfiguration(WorkingDirectory(filesDir), control, socks))
      ensures DecodeSuccess(message).Ok? && old(torp2p).None? ==>
        var (control, socks) := DecodeSuccess(message).value;
        var directory := WorkingDirectory(filesDir);
        var (after, read) := ReadBack(files, StoreFile(directory, ReceivedFile), failAt);
        files' == after && savedDirectory == Some(directory) &&
        (read.Err? ==> crash == Some(read.error) && torp2p == None && mailbox.queue == old(mailbox.queue)) &&
        (read.Ok? ==> crash == None && mailbox.queue == read.value &&
                      torp2p == Some(TorConfiguration(directory, control, socks)))
    {
      torrunning := true;
      var directory := WorkingDirectory(filesDir);
      var ports := DecodeSuccess(message);
      if ports.Err? {
        return files, Some(ports.error);
      }
      var (control, socks) := ports.value;
      if torp2p.Some? {
        torp2p := Some(TorConfiguration(directory, control, socks));
        return files, None;
      }
      // startTorP2P
      savedDirectory := Some(directory);
      var elements;
      files', elements := ReadElements(files, directory, ReceivedFile, failAt);
      if elements.Err? {
        return files', Some(elements.error);
      }
      mailbox.Restore(elements.value);
      torp2p := Some(TorConfiguration(directory, control, socks));
      crash := None;
    }

    /** The start listener's failure: torrunning becomes false. */
    method StartFailed()
      modifies this
      ensures !torrunning
      ensures running == old(running) && torp2p == old(torp2p) && savedDirectory == old(savedDirectory)
    {
      torrunning := false;
    }

    /**
     * The start listener, given what onProgressUpdate dispatched: success starts TorP2P with the
     * ports of its message, failure clears torrunning, an update only shows a toast.
     */
    method OnStartNotification(n: Notification, filesDir: string, files: TextFiles, failAt: Option<nat>)
      returns (files': TextFiles, crash: Option<Exception>)
      requires n.Succeeded? ==> n.message.Plain?
      modifies this, mailbox
      ensures running == old(running) && mailbox.client == old(mailbox.client) && mailbox.handed == old(mailbox.handed)
      ensures n.Succeeded? ==> torrunning
      ensures n.Succeeded? && DecodeSuccess(n.message.text).Err? ==>
        crash == Some(DecodeSuccess(n.message.text).error) && files' == files &&
        torp2p == old(torp2p) && savedDirectory == old(savedDirectory) && mailbox.queue == old(mailbox.queue)
      ensures n.Succeeded? && DecodeSuccess(n.message.text).Ok? && old(torp2p).Some? ==>
        var (control, socks) := DecodeSuccess(n.message.text).value;
        crash == None && files' == files && mailbox.queue == old(mailbox.queue) &&
        savedDirectory == old(savedDirectory) &&
        torp2p == Some(TorConfiguration(WorkingDirectory(filesDir), control, socks))
      ensures n.Succeeded? && DecodeSuccess(n.message.text).Ok? && old(torp2p).None? ==>
        var (control, socks) := DecodeSuccess(n.message.text).value;
        var directory := WorkingDirectory(filesDir);
        var (after, read) := ReadBack(files, StoreFile(directory, ReceivedFile), failAt);
        files' == after && savedDirectory == Some(directory) &&
        (read.Err? ==> crash == Some(read.error) && torp2p == None && mailbox.queue == old(mailbox.queue)) &&
        (read.Ok? ==> crash == None && mailbox.queue == read.value &&
                      torp2p == Some(TorConfiguration(directory, control, socks)))
      ensures !n.Succeeded? ==>
        files' == files && crash == None && torp2p == old(torp2p) && mailbox.queue == old(mailbox.queue) &&
        savedDirectory == old(savedDirectory)
      ensures n.Faulted? ==> !torrunning
      ensures n.Progressed? ==> torrunning == old(torrunning)
    {
      match n
      case Succeeded(message) =>
        files', crash := StartSucceeded(message.text, filesDir, files, failAt);
      case Faulted(_) =>
        StartFailed();
        files', crash := files, None;
      case Progressed(_) =>
        files', crash := files, None;
    }

    /** The stop listener's success: torrunning becomes false. Its failure changes nothing. */
    method StopSucceeded()
      modifies this
      ensures !torrunning
      ensures running == old(running) && torp2p == old(torp2p) && savedDirectory == old(savedDirectory)
    {
      torrunning := false;
    }

    /** rebootTor: returns at once when Tor runs, and does nothing otherwise either. */
    method RebootTor()
      ensures unchanged(this) && unchanged(mailbox)
    {
      if torrunning {
        return;
      }
    }

    /**
     * onDestroy: running becomes false, Tor is asked to stop (its listener calls StopSucceeded
     * later), and the waiting messages are written to the received file of the saved working
     * directory ("null" when none was saved), with nothing banned.
     */
    method OnDestroy(files: TextFiles, open: Outcome<string>) returns (files': TextFiles)
      modifies this, mailbox
      ensures !running && torrunning == old(torrunning) && torp2p == old(torp2p) && savedDirectory == old(savedDirectory)
      ensures mailbox.client == old(mailbox.client) && mailbox.handed == old(mailbox.handed)
      ensures open.Fail? ==> files' == files && mailbox.queue == old(mailbox.queue)
      ensures open.Pass? ==>
        mailbox.queue == [] &&
        files' == files[StoreFile(JavaText(savedDirectory), ReceivedFile) := Records(old(mailbox.queue), {})]
    {
      running := false;
      files' := WriteQueue(mailbox, {}, files, JavaText(savedDirectory), ReceivedFile, open);
    }
  }
}
