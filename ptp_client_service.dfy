/**
 * The ptp ClientService: the Android service that starts Tor through TorManager, starts the PTP
 * library with the ports TorManager reports, and relays the messages the library receives to the
 * bound activity, queueing them while none is bound (see ClientServiceCommon.Mailbox). Its static
 * running flag tells whether the service exists.
 */
module PtpClientService {
  import opened Wrappers
  import opened JavaLang
  import opened TorManager
  import opened ClientServiceCommon

  /**
   * ClientService. The static flag running is a field of the one service object; the PTP
   * library object is known by the configuration it was created with.
   */
  class ClientService {
    /** receivedQueue and client. */
    const mailbox: Mailbox
    var running: bool
    var ptp: Option<TorConfiguration>

    constructor ()
      ensures fresh(mailbox) && mailbox.queue == [] && mailbox.client == None && mailbox.handed == []
      ensures !running && ptp == None
    {
      mailbox := new Mailbox();
      running := false;
      ptp := None;
    }

    /** onCreate: the service runs. */
    method OnCreate()
      modifies this
      ensures running && ptp == old(ptp)
    {
      running := true;
    }

    /**
     * onDestroy: the service no longer runs; Tor is asked to stop and the library to exit
     * (neither changes the service's state). The waiting messages are not saved.
     */
    method OnDestroy()
      modifies this
      ensures !running && ptp == old(ptp)
    {
      running := false;
    }

    /**
     * The start listener's success: the ports are split out of the message (an exception there
     * escapes the listener and nothing is started), and the library is created in the working
     * directory with them (startPTP).
     */
    method StartSucceeded(message: string, filesDir: string) returns (crash: Option<Exception>)
      modifies this
      ensures running == old(running)
      ensures DecodeSuccess(message).Err? ==> crash == Some(DecodeSuccess(message).error) && ptp == old(ptp)
      ensures DecodeSuccess(message).Ok? ==>
        crash == None &&
        ptp == Some(TorConfiguration(WorkingDirectory(filesDir), DecodeSuccess(message).value.0, DecodeSuccess(message).value.1))
    {
      var ports := DecodeSuccess(message);
      if ports.Err? {
        return Some(ports.error);
      }
      ptp := Some(TorConfiguration(WorkingDirectory(filesDir), ports.value.0, ports.value.1));
      crash := None;
    }

    /**
     * The start listener, given what onProgressUpdate dispatched: success starts PeerTorPeer with
     * the ports of its message; failure and updates only show a toast.
     */
    method OnStartNotification(n: Notification, filesDir: string) returns (crash: Option<Exception>)
      requires n.Succeeded? ==> n.message.Plain?
      modifies this
      ensures running == old(running)
      ensures n.Succeeded? && DecodeSuccess(n.message.text).Err? ==>
        crash == Some(DecodeSuccess(n.message.text).error) && ptp == old(ptp)
      ensures n.Succeeded? && DecodeSuccess(n.message.text).Ok? ==>
        crash == None &&
        ptp == Some(TorConfiguration(WorkingDirectory(filesDir), DecodeSuccess(n.message.text).value.0,
                                     DecodeSuccess(n.message.text).value.1))
      ensures !n.Succeeded? ==> crash == None && ptp == old(ptp)
    {
      if n.Succeeded? {
        crash := StartSucceeded(n.message.text, filesDir);
      } else {
        crash := None;
      }
    }
  }
}
