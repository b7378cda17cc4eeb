# Tor supervisor and client services, modelled in Dafny

The model covers the Android example apps that run Tor for a peer-to-peer library.

- **TorManager** does the following:
  - Starts the Tor daemon, or finds one already running through its control-port record.
  - Copies the executable and its configuration into the app's working directory.
  - Waits up to 50 s for Tor to write its control-port record.
  - Authenticates on the control port.
  - Polls the bootstrap phase for up to 90 s.
  - Reports progress, then success (`<prefix>:<control port>:<SOCKS port>`) or failure, to a listener.
  - Stops the daemon through its control port.
- **ClientService** exists in a torp2p and a ptp variant. It:
  - Starts Tor through TorManager.
  - Decodes the ports from the success message.
  - Starts the library with those ports.
  - Relays received messages to the bound activity, queueing them while no activity is bound.
- The torp2p variant also saves the waiting messages to a file when it is destroyed, and reads them back when the library is started again.
- **Utility.copy** copies a raw resource to a file unless the file exists. TorManager.copy is identical.

Modules:

- `Wrappers`: Option, Result, Outcome.
- `JavaLang`: the Java library semantics the code relies on, for ASCII digits and for text without supplementary characters (see "## Left out"):
  - `Integer.valueOf` and `Long.valueOf` in radix 10, and decimal printing.
  - `String.indexOf`, `lastIndexOf`, `substring`, `startsWith` and `replace`.
  - `BufferedReader.readLine`.
  - The exceptions these raise.
- `FileCopy`: copy-if-absent. It has a specification function `Copied`, and the imperative `Copy`/`Pump` loop over a 4096-byte `array` buffer, proved equal to it.
- `TorManager`:
  - The parsers and the listener dispatch.
  - `StartTask.doInBackground` as a specification function (`StartResult`), and the same task as an imperative method with its two poll loops, proved equal to it.
  - `StopTask`.
- `TorManagerFacts`: what a start and a stop guarantee.
- `ClientServiceCommon`: the success-message decoding shared by both services, and `Mailbox`, the class holding `receivedQueue` and `client`.
- `TorP2PClientService`: `writeQueue`/`readElements` and their round trip, and the service class with its `torrunning` flag.
- `PtpClientService`: the ptp service class.

Everything the code reaches outside itself is a parameter:

- The file system is a map from path to bytes (for TorManager and copy) or to text (for the received-messages file).
- The control connection is a `Session`. Its connect and authenticate either pass or raise an IOException.
- GETINFO replies and the `Runtime.exec` outcome are given values.
- A resource is the sequence of results of its `read(buffer)` calls.
- Each turn of a poll loop is a `Tick`: what the daemon did, plus how many milliseconds the sleep took (0 when it was interrupted).
- A send to a client either succeeds or raises RemoteException at a given index.
- A read of the received-messages file raises IOException at a given turn, if at all.

Behaviours of the code worth noting, which the model reproduces:

- Stopping without a control-port record calls `shutdown(-1)`. `java.net.Socket` rejects that port, so the stop reports FAILURE, not success (`StopWithoutRecordFails`).
- A status line that `parsePercent` cannot read is not "no update". The exception leaves the bootstrap loop and fails the start (`BootWaitStops`, the `Raised` case).
- A line without `PROGRESS=` is read from index 8, because `indexOf` gives -1 and nine is added (`ParsePercentWithoutKey`).
- The reuse probe swallows only IOException. Two other exceptions escape it and fail the start before anything is spawned:
  - A recorded port outside 0..65535 (IllegalArgumentException from `Socket`; see `StartProbe`).
  - A SOCKS reply that does not parse (NumberFormatException).

## Model

| member | source | states |
|---|---|---|
| TorManager.OnProgressUpdate | src/edu/kit/tm/torp2p/examples/android/receive/TorManager.java:72-78 | An empty batch dispatches nothing. Otherwise only the last update is dispatched, with its message, to success, update or failure exactly when its code is SUCCESS, UPDATE or FAILURE. |
| TorManagerFacts.OnlyLastUpdateDispatched | src/edu/kit/tm/torp2p/examples/android/receive/TorManager.java:72-78 | Updates earlier in a batch never change what the listener receives. |
| TorManagerFacts.FinishedDispatch | src/edu/kit/tm/torp2p/examples/android/receive/TorManager.java:72-78 | For a batch of UPDATEs closed by one SUCCESS or FAILURE, the listener's call is success or failure, never update. |
| TorManagerFacts.ParsePortOfRecord | src/edu/kit/tm/torp2p/examples/android/receive/TorManager.java:276 | `parsePort("<address>:<port>")` is the port, for any address text and any Java int. |
| TorManagerFacts.ParsePortWholeLine | src/edu/kit/tm/torp2p/examples/android/receive/TorManager.java:276 | A line without ':' is parsed whole: parsePort succeeds exactly when Integer.valueOf of the line does, with the same value. |
| TorManagerFacts.ParsePercentReads | src/edu/kit/tm/torp2p/examples/android/receive/TorManager.java:278-282 | parsePercent reads the text from just after the first "PROGRESS=" up to the next space, and gives its Integer.valueOf or NumberFormatException. |
| TorManagerFacts.ParsePercentNeedsSpace | src/edu/kit/tm/torp2p/examples/android/receive/TorManager.java:280-281 | Without a space after the reading point, substring(start, -1) throws StringIndexOutOfBoundsException. |
| TorManagerFacts.ParsePercentWithoutKey | src/edu/kit/tm/torp2p/examples/android/receive/TorManager.java:279 | A line without "PROGRESS=" is read from index 8. |
| TorManagerFacts.ParsePercentOfStatus | src/edu/kit/tm/torp2p/examples/android/receive/TorManager.java:278-282 | A status reply "NOTICE BOOTSTRAP PROGRESS=<n> <rest>" gives n, for every Java int n and any rest. |
| TorManager.GetControlPort | src/edu/kit/tm/torp2p/examples/android/receive/TorManager.java:251-270 | Never throws. The result is -1, or else the record exists, has a first line, and parsePort of that line gives the result. Conversely, a record whose first line parses gives that port. |
| TorManagerFacts.GetControlPortOfRecord | src/edu/kit/tm/torp2p/examples/android/receive/TorManager.java:251-270 | The record Tor writes, "<address>:<port>" and a line break followed by anything, reads back as its port. |
| TorManagerFacts.GetControlPortWithoutRecord | src/edu/kit/tm/torp2p/examples/android/receive/TorManager.java:251-270 | A missing or empty record gives -1. |
| TorManagerFacts.WorkingDirectoryInjective | src/edu/kit/tm/torp2p/examples/android/receive/TorManager.java:273 | Different base directories have different working directories. |
| TorManagerFacts.PathsDistinct | src/edu/kit/tm/torp2p/examples/android/receive/TorManager.java:90-94 | The executable, the torrc, the configuration and the control-port record are four different paths. |
| TorManager.Open | src/edu/kit/tm/torp2p/examples/android/receive/TorManager.java:159-161 | The connection opens exactly when the port is within 0..65535 and both connect and authenticate pass. A port out of range raises IllegalArgumentException; otherwise the failure is an IOException. |
| TorManager.Classify | src/edu/kit/tm/torp2p/examples/android/receive/TorManager.java:170-173 | A reply completes bootstrapping exactly when it is a reply and starts with the done marker. A failed query is unusable with its IOException. Any other reply is the percentage parsePercent reads from it, or unusable with parsePercent's exception. |
| TorManager.Materialize | src/edu/kit/tm/torp2p/examples/android/receive/TorManager.java:114-118 | The three copies in order, stopping at the first IOException, equal the specification `Materialized`. |
| TorManagerFacts.MaterializedWritesOnlyItsFiles | src/edu/kit/tm/torp2p/examples/android/receive/TorManager.java:116-118 | No path other than the executable, the torrc and the configuration is created, removed or changed. |
| TorManagerFacts.MaterializedIdempotent | src/edu/kit/tm/torp2p/examples/android/receive/TorManager.java:116-118 | After a successful materialization, doing it again from any resources changes nothing and succeeds. |
| TorManager.AwaitControlPort | src/edu/kit/tm/torp2p/examples/android/receive/TorManager.java:140-152 | The first poll loop, with its budget invariant, ends with the files and found flag of the specification `PortWait`. |
| TorManagerFacts.PortWaitEnds | src/edu/kit/tm/torp2p/examples/android/receive/TorManager.java:140-154 | The wait ends at the first tick where the record exists, within the 50 000 ms budget, or once the budget is spent. In the second case nothing was written. Only the record path is ever written. |
| TorManagerFacts.PortWaitSeesStaleRecord | src/edu/kit/tm/torp2p/examples/android/receive/TorManager.java:144-145 | A record left from an earlier run ends the wait at the first tick. |
| TorManagerFacts.PortWaitFindsOnlyWrites | src/edu/kit/tm/torp2p/examples/android/receive/TorManager.java:142-152 | Starting without a record, the wait finds one only at a tick where Tor wrote it. |
| TorManager.ReadReply | src/edu/kit/tm/torp2p/examples/android/receive/TorManager.java:170-173 | One turn's reading of a GETINFO reply is the specification's classification of that poll. |
| TorManager.AwaitBootstrap | src/edu/kit/tm/torp2p/examples/android/receive/TorManager.java:165-181 | The second poll loop publishes the updates, and stops for the reason, that the specification `BootWait` gives for the classified polls. |
| TorManagerFacts.BootWaitUpdates | src/edu/kit/tm/torp2p/examples/android/receive/TorManager.java:167-177 | The loop publishes one "Bootstrap: n" UPDATE per progress reply before it stops, in order, each with that reply's percentage. |
| TorManagerFacts.BootWaitPublishesUpdates | src/edu/kit/tm/torp2p/examples/android/receive/TorManager.java:174 | Everything the bootstrap loop publishes has the UPDATE code. |
| TorManagerFacts.BootWaitStops | src/edu/kit/tm/torp2p/examples/android/receive/TorManager.java:165-183 | The loop ends in one of three ways. Done only on a done reply, within the 90 000 ms budget. A timeout only once the budget is spent. An exception only on a failed query or an unparseable reply, within budget. |
| TorManagerFacts.BootstrapDoneOnlyOnMarker | src/edu/kit/tm/torp2p/examples/android/receive/TorManager.java:170-172 | Bootstrapping completes only on a reply starting with "NOTICE BOOTSTRAP PROGRESS=100 TAG=done", before the budget is spent. Every earlier reply lacked the marker and parsed. |
| TorManager.StartTask | src/edu/kit/tm/torp2p/examples/android/receive/TorManager.java:88-194 | The task, step by step, publishes the updates, leaves the files and spawns or destroys the process exactly as the specification `StartResult` says. |
| TorManagerFacts.AbortWellEnded | src/edu/kit/tm/torp2p/examples/android/receive/TorManager.java:187-191 | The catch block closes the UPDATEs with one FAILURE, deletes the record, and destroys the process exactly when one was spawned. |
| TorManagerFacts.ReportedWellEnded | src/edu/kit/tm/torp2p/examples/android/receive/TorManager.java:184-186 | Publishing "Bootstrapping done:<control>:<socks>" after the UPDATEs ends the run well, with the process alive and the record in place. |
| TorManagerFacts.BootstrappedWellEnded | src/edu/kit/tm/torp2p/examples/android/receive/TorManager.java:162-191 | After authentication, the run ends well, and a success implies the bootstrap wait saw the done marker. |
| TorManagerFacts.SpawnedWellEnded | src/edu/kit/tm/torp2p/examples/android/receive/TorManager.java:136-191 | After a successful exec, the run ends well whichever wait or query fails. |
| TorManagerFacts.FreshStartWellEnded | src/edu/kit/tm/torp2p/examples/android/receive/TorManager.java:114-191 | A fresh start ends well, including when a copy or the exec fails. |
| TorManagerFacts.StartWellEnded | src/edu/kit/tm/torp2p/examples/android/receive/TorManager.java:97-191 | Every start ends well: UPDATEs, then exactly one SUCCESS or FAILURE. A failure leaves no record, with the process destroyed iff spawned. A success leaves the record and a live process, and reports the recorded control port. |
| TorManagerFacts.StartFinishes | src/edu/kit/tm/torp2p/examples/android/receive/TorManager.java:186-191 | Every start publishes zero or more UPDATEs and then exactly one SUCCESS or FAILURE, so the listener's last call is success or failure. |
| TorManagerFacts.StartCleansUp | src/edu/kit/tm/torp2p/examples/android/receive/TorManager.java:187-191 | A failed start leaves no control-port record, and destroyed the process exactly when it spawned one. A successful start leaves the record and does not destroy the process. |
| TorManagerFacts.StartReusesRunningDaemon | src/edu/kit/tm/torp2p/examples/android/receive/TorManager.java:99-108 | When the recorded daemon answers, the start publishes exactly "Tor already running:<control>:<socks>", spawns nothing and changes no file. |
| TorManagerFacts.StartProbe | src/edu/kit/tm/torp2p/examples/android/receive/TorManager.java:99-112 | No record, or an IOException in the probe, leads to a fresh start. A recorded port that Socket rejects fails the start with nothing spawned. |
| TorManagerFacts.StartSuccessReportsPorts | src/edu/kit/tm/torp2p/examples/android/receive/TorManager.java:183-186 | A successful start reports the control port left on record, under the prefix matching whether it spawned Tor. When it spawned Tor, bootstrapping completed. |
| TorManagerFacts.StartAgainReuses | src/edu/kit/tm/torp2p/examples/android/receive/TorManager.java:99-108 | Starting again after a success, while the daemon answers, reuses it with the same control port, spawns nothing and changes no file. |
| TorManagerFacts.StartTimesOutWithoutRecord | src/edu/kit/tm/torp2p/examples/android/receive/TorManager.java:139-154 | If Tor never writes its record, the start publishes "Bootstrapping started." and the control-port timeout, and destroys the process. |
| TorManager.StopTask | src/edu/kit/tm/torp2p/examples/android/receive/TorManager.java:204-216 | The stop publishes SUCCESS exactly when the recorded port is valid and connect, authenticate and the shutdown command all pass; otherwise it publishes FAILURE. |
| TorManagerFacts.StopWithoutRecordFails | src/edu/kit/tm/torp2p/examples/android/receive/TorManager.java:208-212 | Without a record, the stop reports FAILURE with Socket's refusal of port -1. |
| TorManagerFacts.StopAfterFailedStartFails | src/edu/kit/tm/torp2p/examples/android/receive/TorManager.java:187-212 | A stop after a failed start fails, because the failed start deleted the record. |
| FileCopy.Copy | src/edu/kit/tm/android/torp2psend/Utility.java:15-37 | copy, with its buffer loop, leaves the files and the outcome of the specification `Copied`. |
| FileCopy.Pump | src/edu/kit/tm/torp2p/examples/android/receive/TorManager.java:298-301 | The read/write loop writes exactly the bytes of the reads before the first that delivers no bytes. It fails with that read's IOException, if it raised one. |
| FileCopy.ReadInto | src/edu/kit/tm/android/torp2psend/Utility.java:31 | read(buffer) puts the delivered bytes at the front of the buffer and returns their count, or returns -1 at the end of the stream. Where Java throws an IOException, the model returns -1 with that exception as the failure. |
| FileCopy.StopAt | src/edu/kit/tm/android/torp2psend/Utility.java:31 | The loop writes every read before the first that delivers no bytes, and stops there. |
| FileCopy.CopyExistingIsNoOp | src/edu/kit/tm/android/torp2psend/Utility.java:16-17 | If the destination exists, copy changes no file and succeeds. |
| FileCopy.CopyIdempotent | src/edu/kit/tm/android/torp2psend/Utility.java:16-17 | A second copy to the same location, from any resource, keeps what the first produced. |
| FileCopy.CopyWritesDestinationOnly | src/edu/kit/tm/android/torp2psend/Utility.java:19-32 | Otherwise only the destination is added, holding exactly the bytes the loop wrote; every other file is unchanged. |
| FileCopy.ZipCopiesFirstEntry | src/edu/kit/tm/android/torp2psend/Utility.java:23-26 | With zip set, the destination holds the bytes of the first zip entry's stream. |
| FileCopy.WrittenBound | src/edu/kit/tm/android/torp2psend/Utility.java:29-32 | The destination holds at most 4096 bytes per read the loop wrote. |
| FileCopy.WholeStreamCopied | src/edu/kit/tm/android/torp2psend/Utility.java:29-32 | A stream whose every read delivers bytes is copied whole, and the copy succeeds. |
| FileCopy.FailedCopyIsKept | src/edu/kit/tm/android/torp2psend/Utility.java:16-32 | A copy that fails part-way leaves the bytes read so far, and a later copy never completes it. |
| ClientServiceCommon.Ports | src/edu/kit/tm/torp2p/examples/android/receive/ClientService.java:355-356 | The two Integer.valueOf calls succeed exactly when both texts parse, and give their values. |
| ClientServiceCommon.SplitAt | src/edu/kit/tm/torp2p/examples/android/receive/ClientService.java:353-356 | With the first two ':' at first and second, the control text is what lies between them and the SOCKS text is everything after the second. |
| ClientServiceCommon.DecodeSuccessSplits | src/edu/kit/tm/ptp/examples/android/receive/ClientService.java:223-226 | For a ':'-free prefix and control text, the control port is read from between the first and second ':', and the SOCKS port from everything after the second. |
| ClientServiceCommon.DecodeNeedsDelimiter | src/edu/kit/tm/torp2p/examples/android/receive/ClientService.java:353-355 | A message without ':' throws instead of decoding. |
| ClientServiceCommon.DecodeSuccessRoundTrip | src/edu/kit/tm/torp2p/examples/android/receive/ClientService.java:353-356 | Decoding gives back the two ports TorManager's success message encodes, for any ':'-free prefix. |
| ClientServiceCommon.StartSuccessDecodes | src/edu/kit/tm/torp2p/examples/android/receive/ClientService.java:347-356 | Every start publishes something. A successful start's message is a plain text from which the services decode the control port that start left on record. |
| ClientServiceCommon.Mailbox.constructor | src/edu/kit/tm/torp2p/examples/android/receive/ClientService.java:141-143 | A new service has an empty queue and no client. |
| ClientServiceCommon.Mailbox.Register | src/edu/kit/tm/torp2p/examples/android/receive/ClientService.java:113-131 | Messages are sent oldest first, each removed only after its send, so sent + queue is the old queue. If every send succeeds, the queue ends empty and replyTo becomes the client. At the first RemoteException the rest stays queued and the client is unchanged. |
| ClientServiceCommon.Mailbox.Unregister | src/edu/kit/tm/ptp/examples/android/receive/ClientService.java:88-89 | The client becomes null; the queue is untouched. |
| ClientServiceCommon.Mailbox.Handle | src/edu/kit/tm/ptp/examples/android/receive/ClientService.java:68-93 | Register drains as above, unregister clears the client, and other message types change nothing. The stream of messages handed out and waiting is preserved. |
| ClientServiceCommon.Mailbox.Received | src/edu/kit/tm/torp2p/examples/android/receive/ClientService.java:194-209 | Without a client the message is appended to the queue. With one it is sent; a failed send drops the client and the message. While no message waits with a client registered, the stream grows by exactly the message when there is no client or the send succeeds. |
| ClientServiceCommon.Mailbox.Restore | src/edu/kit/tm/torp2p/examples/android/receive/ClientService.java:187 | The queue becomes the messages read back, and the client is untouched. |
| TorP2PClientService.Allowed | src/edu/kit/tm/torp2p/examples/android/receive/ClientService.java:291 | The messages kept are exactly the messages of the queue whose ids are not banned. |
| TorP2PClientService.WriteQueue | src/edu/kit/tm/torp2p/examples/android/receive/ClientService.java:282-305 | With the file opened, the queue ends empty and the file holds "identifier\ncontent\nid\n" for each non-banned message, in queue order. If the file cannot be opened, nothing changes. |
| TorP2PClientService.ReadElements | src/edu/kit/tm/torp2p/examples/android/receive/ClientService.java:307-330 | Turn by turn, the method gives the messages and files of the specification `ReadBack`. A missing file gives no messages. A file read to its end is deleted. An IOException keeps the messages read so far and the file. A malformed id escapes. |
| TorP2PClientService.TriplesOfRecords | src/edu/kit/tm/torp2p/examples/android/receive/ClientService.java:316-321 | Reading the written records gives the non-banned messages in order. An IOException at turn n gives the first n of them. |
| TorP2PClientService.WriteQueueReadsBack | src/edu/kit/tm/torp2p/examples/android/receive/ClientService.java:282-330 | Round trip with nothing banned, and no line break in identifiers or contents: readElements gives back the queue in order and deletes the file. An IOException at turn n gives its first n messages and keeps the file. |
| TorP2PClientService.BannedNotReadBack | src/edu/kit/tm/torp2p/examples/android/receive/ClientService.java:290-297 | Messages with banned ids are not read back; the others come back in order. |
| TorP2PClientService.ClientService.constructor | src/edu/kit/tm/torp2p/examples/android/receive/ClientService.java:73-74 | Not running at first, with an empty queue, no client and no library. torrunning is the static flag as earlier services in the process left it, and the saved working directory is the persisted preference an earlier service left, if any. |
| TorP2PClientService.ClientService.OnCreate | src/edu/kit/tm/torp2p/examples/android/receive/ClientService.java:146-148 | running becomes true; nothing else changes. |
| TorP2PClientService.ClientService.StartTor | src/edu/kit/tm/torp2p/examples/android/receive/ClientService.java:332-344 | Tor is asked to start exactly when torrunning is false and the network is connected; otherwise nothing happens. |
| TorP2PClientService.ClientService.StartSucceeded | src/edu/kit/tm/torp2p/examples/android/receive/ClientService.java:347-368 | torrunning becomes true. An undecodable message escapes with nothing else changed. The first time, the directory is saved, the queue is replaced by the messages read back, and the library gets the decoded ports. On a reboot only the library's configuration is updated. |
| TorP2PClientService.ClientService.StartFailed | src/edu/kit/tm/torp2p/examples/android/receive/ClientService.java:374-377 | torrunning becomes false. |
| TorP2PClientService.ClientService.OnStartNotification | src/edu/kit/tm/torp2p/examples/android/receive/ClientService.java:344-378 | A success sets torrunning. A message that does not decode escapes with its exception and nothing else changes. Otherwise an existing library is reconfigured with the working directory and both decoded ports. Without one, the directory is saved and the received file read back. A read failure escapes; else the queue becomes the messages read and the library is created with the working directory and both ports. A failure clears torrunning. An update changes nothing. The saved directory changes only on a success, and the messages already handed to the client are untouched. |
| TorP2PClientService.ClientService.StopSucceeded | src/edu/kit/tm/torp2p/examples/android/receive/ClientService.java:385-388 | torrunning becomes false. |
| TorP2PClientService.ClientService.RebootTor | src/edu/kit/tm/torp2p/examples/android/receive/ClientService.java:398-400 | Nothing changes, in any state. |
| TorP2PClientService.ClientService.OnDestroy | src/edu/kit/tm/torp2p/examples/android/receive/ClientService.java:265-278 | running becomes false. The waiting messages are written, with nothing banned, to the received file of the saved directory, and the queue ends empty. The saved directory and the messages handed to the client are unchanged. |
| PtpClientService.ClientService.constructor | src/edu/kit/tm/ptp/examples/android/receive/ClientService.java:96-99 | Not running at first, with an empty queue, no client and no library. |
| PtpClientService.ClientService.OnCreate | src/edu/kit/tm/ptp/examples/android/receive/ClientService.java:102-105 | running becomes true. |
| PtpClientService.ClientService.OnDestroy | src/edu/kit/tm/ptp/examples/android/receive/ClientService.java:196-202 | running becomes false; the waiting messages are not saved. |
| PtpClientService.ClientService.StartSucceeded | src/edu/kit/tm/ptp/examples/android/receive/ClientService.java:216-230 | An undecodable message escapes and starts nothing. Otherwise the library is created in the working directory with the decoded ports. |
| PtpClientService.ClientService.OnStartNotification | src/edu/kit/tm/ptp/examples/android/receive/ClientService.java:213-243 | A success starts the library with the working directory and both decoded ports, or lets the decoding exception escape with the library unchanged. A failure or an update only shows a toast and changes nothing. |

## Left out

- Sockets, the Tor control protocol, `Runtime.exec`, `Process.destroy`, `Thread.sleep` and the clock are foreign calls. Their results are inputs: sessions, replies, outcomes, ticks. A destroyed process is a flag.
- `Live` requires the ticks of both poll loops to add up to at least the loop's budget. A clock that never advances would make the source loop forever, and the model does not cover that case.
- `mkdirs`, `mkdir` and `setExecutable` are not modelled; the source ignores their results.
- Concurrency is not modelled: `AsyncTask`, the listener callbacks on the main thread, the library's threads, and `ConcurrentLinkedQueue`. The queue is a sequence changed by one caller at a time.
- How AsyncTask batches published updates is not modelled. `OnProgressUpdate` is stated for any batch, and a start's updates as one sequence.
- `getMessage()` texts of exceptions raised by the platform are kept as the exception itself (`MessageOf`). The TimeoutException texts of the task itself are written out.
- ZIP decompression is not modelled: a resource gives the reads of its first entry directly.
- Character encodings are not modelled. The control-port record is decoded one character per byte, and the received-messages file is text.
- The Android glue is left out: toasts, the notification area, `onStartCommand`, `onBind`, the connectivity `BroadcastReceiver`, and the Messenger/Bundle encoding. SharedPreferences is the `savedDirectory` field. Its persistence across service instances is a constructor parameter. A new service that is destroyed before its own start succeeds writes its queue under the directory an earlier service saved, as `onDestroy` does (torp2p `ClientService.java`, lines 274-277). The static `running` and `torrunning` flags are fields of the service object. A new service in the same process inherits `torrunning` through a constructor parameter. A stop listener left behind by an earlier service, which clears the shared flag when its stop succeeds (torp2p `ClientService.java`, line 387), is a call of `StopSucceeded` on the current object.
- The TorP2P and PTP library calls are left out: the constructor, `setListener`, `reuseHiddenService`, `getIdentifier` and `exit`. The identifier-announcing thread and the RuntimeExceptions those calls can raise are left out with them. The library is represented by the configuration it was given.
- An `Identifier` is its text: `toString` and `new Identifier(String)` are taken to be inverse.
- TorP2PClientService.WriteQueue: only a failure to open the file is modelled. An IOException from a write or close after the open is not.
- TorP2PClientService.ReadElements: only a failure of a read is modelled. An IOException from `buffer.close()` after the loop (`ClientService.java`, line 322), which would skip `file.delete()` and leave the file in place, is not.
- FileCopy.Copy: opening the destination, writing and closing are taken to succeed. Only reads raise IOException.
- TorP2PClientService.ClientService.OnStartNotification: requires a success notification to carry plain text. `StartSuccessDecodes` proves every success TorManager publishes does.
- PtpClientService.ClientService.OnStartNotification: the same requirement, for the same reason.
- `Integer.valueOf` and `Long.valueOf` accept any Unicode decimal digit, through `Character.digit`. `JavaLang.ParseDecimal` accepts only the ASCII digits '0'..'9'. The texts parsed here are written by Tor or by `String.valueOf`, and those use ASCII digits.
- Java's `indexOf`, `lastIndexOf`, `substring` and string lengths count UTF-16 code units. Dafny strings count Unicode scalar values, so indices differ on text with supplementary characters.
- `MainActivity.java` is not part of this model.
