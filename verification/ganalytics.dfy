/**
 * The tracker object: it builds appview records, keeps them in a FIFO message
 * queue, posts the head of the queue on every timer tick and removes it only
 * once the collector answers with a 2xx status.
 *
 * Besides the real state (the configured values and `messageQueue`) the class
 * keeps ghost bookkeeping that the source does not have, so that the order of
 * sends and removals can be stated:
 *   enqueued     every record ever enqueued, in order;
 *   acknowledged every record removed after a 2xx reply, in order;
 *   sent         every payload handed to the network, in order;
 *   sentIndex    for every post, the position in `enqueued` of the record
 *                posted;
 *   inFlight     the positions of the posts still waiting for a reply.
 * The source keeps no in-flight flag: nothing stops a timer tick from posting
 * the head again while an earlier post of it is unanswered.
 */
module GoogleAnalytics {
  import opened Wrappers
  import opened UrlQuery
  import opened Appview

  /** The collector every message is posted to. */
  const CollectUrl: string := "http://www.google-analytics.com/collect"

  /** A reply status the tracker treats as delivered. */
  predicate IsSuccess(status: int) {
    200 <= status <= 299
  }

  class GAnalytics {
    const trackingID: string
    const clientID: string
    const userID: string
    const userIPAddress: string
    const appName: string
    const appVersion: string
    const requestUrl: string

    var messageQueue: seq<Query>

    ghost var enqueued: seq<Query>
    ghost var acknowledged: seq<Query>
    ghost var sent: seq<Query>
    ghost var sentIndex: seq<nat>
    ghost var inFlight: seq<nat>

    /** The configured values the record builder reads. */
    function Configured(): Config {
      Config(trackingID, clientID, userID, userIPAddress, appName, appVersion)
    }

    /**
     * The invariant every operation keeps, whether or not posts overlap:
     * the queue is what was enqueued minus what was acknowledged (FIFO
     * removal), and every payload sent is an enqueued record, sent in
     * enqueue order and never later than the current head.
     */
    ghost predicate Valid()
      reads this
    {
      acknowledged + messageQueue == enqueued &&
      (forall i :: 0 <= i < |sentIndex| ==>
         sentIndex[i] <= |acknowledged| && sentIndex[i] < |enqueued|) &&
      |sent| == |sentIndex| &&
      (forall i :: 0 <= i < |sent| ==> sent[i] == enqueued[sentIndex[i]]) &&
      (forall i, j :: 0 <= i < j < |sentIndex| ==> sentIndex[i] <= sentIndex[j]) &&
      (forall i :: 0 <= i < |inFlight| ==> inFlight[i] in sentIndex)
    }

    /**
     * The discipline the source relies on but does not enforce: at most one
     * post is unanswered, it is a post of the current head, and every record
     * removed from the queue was posted at least once.
     */
    ghost predicate SingleFlight()
      reads this
    {
      |inFlight| <= 1 &&
      (forall i :: 0 <= i < |inFlight| ==> inFlight[i] == |acknowledged|) &&
      (forall n :: 0 <= n < |acknowledged| ==> n in sentIndex)
    }

    /**
     * Under the single-flight discipline a reply always finds a non-empty
     * queue, so the dequeue on a 2xx status is defined.
     */
    lemma SingleFlightReplyFindsHead(k: nat)
      requires Valid() && SingleFlight() && k < |inFlight|
      ensures messageQueue != [] && messageQueue[0] == enqueued[inFlight[k]]
    {
    }

    /** A tracker with an empty queue; the other configured values start empty. */
    constructor (trackingID: string, clientID: string)
      ensures Valid() && SingleFlight()
      ensures this.trackingID == trackingID && this.clientID == clientID
      ensures userID == "" && userIPAddress == "" && appName == "" && appVersion == ""
      ensures requestUrl == CollectUrl
      ensures messageQueue == [] && enqueued == [] && sent == [] && inFlight == []
    {
      this.trackingID := trackingID;
      this.clientID := clientID;
      userID, userIPAddress, appName, appVersion := "", "", "", "";
      requestUrl := CollectUrl;
      messageQueue := [];
      enqueued, acknowledged, sent, sentIndex, inFlight := [], [], [], [], [];
    }

    /**
     * Builds the appview record item by item: the four standard items, then
     * user id and IP address when set, then application name and version,
     * each taken from the configuration when set there and otherwise from
     * the argument, and left out when both are empty.
     */
    method BuildAppview(appName: string, appVersion: string) returns (query: Query)
      ensures query == AppviewQuery(Configured(), appName, appVersion)
    {
      query := [];
      query := query + [("v", "1")];
      query := query + [("tid", trackingID)];
      query := query + [("cid", clientID)];
      query := query + [("t", "appview")];
      ghost var header := query;
      ghost var uid, uip, an, av: Query := [], [], [], [];
      if userID != "" {
        query := query + [("uid", userID)];
        uid := [("uid", userID)];
      }
      assert query == header + uid;
      if userIPAddress != "" {
        query := query + [("uip", userIPAddress)];
        uip := [("uip", userIPAddress)];
      }
      assert query == header + uid + uip;
      if this.appName != "" {
        query := query + [("an", this.appName)];
        an := [("an", this.appName)];
      } else if appName != "" {
        query := query + [("an", appName)];
        an := [("an", appName)];
      }
      assert query == header + uid + uip + an;
      if this.appVersion != "" {
        query := query + [("av", this.appVersion)];
        av := [("av", this.appVersion)];
      } else if appVersion != "" {
        query := query + [("av", appVersion)];
        av := [("av", appVersion)];
      }
      assert query == header + uid + uip + an + av;
      ghost var c := Configured();
      assert header == Header(c);
      assert uid == ItemIfSet("uid", c.userID) && uip == ItemIfSet("uip", c.userIPAddress);
      assert an == ItemIfSet("an", Prefer(c.appName, appName));
      assert av == ItemIfSet("av", Prefer(c.appVersion, appVersion));
      AppviewQueryPieces(c, appName, appVersion);
    }

    /**
     * sendAppview: builds the record and appends it to the tail of the
     * queue; `screenName` is accepted and not used.
     */
    method SendAppview(appName: string, appVersion: string, screenName: string)
      requires Valid()
      modifies this
      ensures Valid()
      ensures messageQueue == old(messageQueue) + [AppviewQuery(Configured(), appName, appVersion)]
      ensures enqueued == old(enqueued) + [AppviewQuery(Configured(), appName, appVersion)]
      ensures acknowledged == old(acknowledged)
      ensures sent == old(sent) && sentIndex == old(sentIndex) && inFlight == old(inFlight)
      ensures old(SingleFlight()) ==> SingleFlight()
    {
      var query := BuildAppview(appName, appVersion);
      messageQueue := messageQueue + [query];
      enqueued := enqueued + [query];
    }

    /**
     * One drain step: with an empty queue nothing happens; otherwise the head
     * is handed to the network (returned as `payload`) and stays queued.
     */
    method PostMessage() returns (payload: Option<Query>)
      requires Valid()
      modifies this
      ensures Valid()
      ensures messageQueue == old(messageQueue)
      ensures enqueued == old(enqueued) && acknowledged == old(acknowledged)
      ensures old(messageQueue) == [] ==>
                payload == None && sent == old(sent) && sentIndex == old(sentIndex) &&
                inFlight == old(inFlight)
      ensures old(messageQueue) != [] ==>
                payload == Some(old(messageQueue)[0]) &&
                old(messageQueue)[0] == enqueued[|acknowledged|] &&
                sent == old(sent) + [old(messageQueue)[0]] &&
                sentIndex == old(sentIndex) + [|acknowledged|] &&
                inFlight == old(inFlight) + [|acknowledged|]
      ensures old(SingleFlight()) && old(inFlight) == [] ==> SingleFlight()
    {
      if messageQueue == [] {
        return None;
      }
      var param := messageQueue[0];
      assert param == (acknowledged + messageQueue)[|acknowledged|];
      sent := sent + [param];
      sentIndex := sentIndex + [|acknowledged|];
      inFlight := inFlight + [|acknowledged|];
      payload := Some(param);
    }

    /** Removes the head of the queue and records it as acknowledged. */
    method DequeueHead() returns (removed: Query)
      requires Valid() && messageQueue != []
      modifies this
      ensures Valid()
      ensures removed == old(messageQueue[0])
      ensures messageQueue == old(messageQueue[1..])
      ensures acknowledged == old(acknowledged) + [removed]
      ensures enqueued == old(enqueued) && sent == old(sent)
      ensures sentIndex == old(sentIndex) && inFlight == old(inFlight)
    {
      removed := messageQueue[0];
      assert messageQueue == [removed] + messageQueue[1..];
      assert removed == enqueued[|acknowledged|];
      messageQueue := messageQueue[1..];
      acknowledged := acknowledged + [removed];
    }

    /**
     * The network's reply to the `k`-th unanswered post. Outside 200..299 the
     * queue is left as it is, so the same head is posted again on the next
     * tick; on a 2xx status the head is dequeued and the next drain step runs
     * at once, its post returned as `payload`.
     */
    method PostMessageFinished(status: int, ghost k: nat) returns (payload: Option<Query>)
      requires Valid()
      requires k < |inFlight|
      requires IsSuccess(status) ==> messageQueue != []
      modifies this
      ensures Valid()
      ensures enqueued == old(enqueued)
      ensures !IsSuccess(status) ==>
                payload == None &&
                messageQueue == old(messageQueue) && acknowledged == old(acknowledged) &&
                sent == old(sent) && sentIndex == old(sentIndex) &&
                inFlight == old(inFlight[..k] + inFlight[k + 1..])
      ensures IsSuccess(status) ==>
                messageQueue == old(messageQueue[1..]) &&
                acknowledged == old(acknowledged) + [old(messageQueue[0])] &&
                payload == (if messageQueue == [] then None else Some(messageQueue[0]))
      ensures IsSuccess(status) && messageQueue == [] ==>
                sent == old(sent) && sentIndex == old(sentIndex) && inFlight == old(inFlight[..k] + inFlight[k + 1..])
      ensures IsSuccess(status) && messageQueue != [] ==>
                sent == old(sent) + [messageQueue[0]] &&
                sentIndex == old(sentIndex) + [|acknowledged|] &&
                inFlight == old(inFlight[..k] + inFlight[k + 1..]) + [|acknowledged|]
      ensures old(SingleFlight()) ==> SingleFlight()
      ensures old(SingleFlight()) && IsSuccess(status) ==>
                old(inFlight[k]) == old(|acknowledged|) &&
                acknowledged == old(acknowledged) + [old(enqueued[inFlight[k]])]
    {
      ghost var answered := inFlight[k];
      inFlight := inFlight[..k] + inFlight[k + 1..];
      if status < 200 || status > 299 {
        return None;
      }
      var removed := DequeueHead();
      assert old(SingleFlight()) ==> answered == |acknowledged| - 1 && answered in sentIndex;
      payload := PostMessage();
    }
  }
}
