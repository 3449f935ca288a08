/**
 * Runs of the tracker driven tick by tick and reply by reply, with the
 * timer ticks written as explicit calls of PostMessage.
 */
module Scenarios {
  import opened Wrappers
  import opened UrlQuery
  import opened Appview
  import opened GoogleAnalytics

  /** The configuration of a tracker made with tracking id "UA-1" and client id "c1". */
  function SampleConfig(): Config {
    Config("UA-1", "c1", "", "", "", "")
  }

  /**
   * Three appviews A, B, C are queued. The first post of A is answered with
   * 500: the queue is unchanged and the next tick posts A again. That post is
   * answered with 200: A leaves the queue and B is posted at once.
   */
  method RetryThenPipeline() returns (firstPost: Option<Query>, afterFailure: seq<Query>,
                                      retryPost: Option<Query>, afterSuccess: seq<Query>,
                                      pipelined: Option<Query>)
    ensures var a := AppviewQuery(SampleConfig(), "A", "");
            var b := AppviewQuery(SampleConfig(), "B", "");
            var c := AppviewQuery(SampleConfig(), "C", "");
            firstPost == Some(a) && afterFailure == [a, b, c] && retryPost == Some(a) &&
            afterSuccess == [b, c] && pipelined == Some(b)
  {
    ghost var a := AppviewQuery(SampleConfig(), "A", "");
    ghost var b := AppviewQuery(SampleConfig(), "B", "");
    ghost var c := AppviewQuery(SampleConfig(), "C", "");
    var g := new GAnalytics("UA-1", "c1");
    assert g.Configured() == SampleConfig();
    g.SendAppview("A", "", "");
    g.SendAppview("B", "", "");
    g.SendAppview("C", "", "");
    assert g.messageQueue == [a, b, c];
    firstPost := g.PostMessage();
    assert firstPost == Some(a) && g.messageQueue == [a, b, c] && |g.inFlight| == 1;
    assert !IsSuccess(500) && IsSuccess(200);
    var none := g.PostMessageFinished(500, 0);
    afterFailure := g.messageQueue;
    assert afterFailure == [a, b, c];
    retryPost := g.PostMessage();
    assert retryPost == Some(a) && |g.inFlight| == 1;
    pipelined := g.PostMessageFinished(200, 0);
    afterSuccess := g.messageQueue;
    assert afterSuccess == [a, b, c][1..] == [b, c];
  }

  /** Appviews named A and B give different records. */
  lemma SampleRecordsDiffer()
    ensures AppviewQuery(SampleConfig(), "A", "") != AppviewQuery(SampleConfig(), "B", "")
  {
  }

  /**
   * Two ticks fire before the reply to the first post of A arrives, so A is
   * posted twice and both posts are unanswered.
   */
  method DuplicatePost() returns (g: GAnalytics, first: Option<Query>, second: Option<Query>)
    ensures var a := AppviewQuery(SampleConfig(), "A", "");
            fresh(g) && g.Valid() && g.Configured() == SampleConfig() &&
            first == second == Some(a) && g.messageQueue == [a] && g.enqueued == [a] &&
            g.acknowledged == [] && g.sent == [a, a] && g.inFlight == [0, 0]
  {
    ghost var a := AppviewQuery(SampleConfig(), "A", "");
    g := new GAnalytics("UA-1", "c1");
    assert g.Configured() == SampleConfig();
    g.SendAppview("A", "", "");
    assert g.messageQueue == [a] && g.enqueued == [a] && g.acknowledged == [];
    first := g.PostMessage();
    assert g.sent == [a] && g.inFlight == [0];
    second := g.PostMessage();
  }

  /**
   * Continuing DuplicatePost: the first 200 removes A and leaves the queue
   * empty with a post still unanswered, so a 2xx reply to it would dequeue
   * an empty queue.
   */
  method DuplicatePostThenReply() returns (g: GAnalytics, posts: seq<Query>)
    ensures var a := AppviewQuery(SampleConfig(), "A", "");
            fresh(g) && g.Valid() && g.Configured() == SampleConfig() &&
            posts == [a, a] && g.messageQueue == [] && g.inFlight == [0] &&
            g.enqueued == [a] && g.acknowledged == [a] && g.sent == [a, a]
  {
    ghost var a := AppviewQuery(SampleConfig(), "A", "");
    var p1, p2;
    g, p1, p2 := DuplicatePost();
    assert IsSuccess(200);
    var r1 := g.PostMessageFinished(200, 0);
    assert g.messageQueue == [a][1..] == [];
    assert g.inFlight == [0, 0][..0] + [0, 0][1..] == [0];
    assert g.acknowledged == [] + [a];
    posts := [p1.value, p2.value];
  }

  /**
   * Continuing DuplicatePostThenReply: B is queued, and the 200 answering
   * the duplicate post of A removes B, which was never posted.
   */
  method DuplicatePostDropsNext()
    returns (queueBeforeDuplicateReply: seq<Query>, queueAfterDuplicateReply: seq<Query>,
             ghost acknowledged: seq<Query>, ghost sent: seq<Query>)
    ensures var a := AppviewQuery(SampleConfig(), "A", "");
            var b := AppviewQuery(SampleConfig(), "B", "");
            a != b &&
            queueBeforeDuplicateReply == [b] && queueAfterDuplicateReply == [] &&
            acknowledged == [a, b] && sent == [a, a]
  {
    ghost var a := AppviewQuery(SampleConfig(), "A", "");
    ghost var b := AppviewQuery(SampleConfig(), "B", "");
    SampleRecordsDiffer();
    var g, posts := DuplicatePostThenReply();
    g.SendAppview("B", "", "");
    queueBeforeDuplicateReply := g.messageQueue;
    assert queueBeforeDuplicateReply == [b] && g.acknowledged == [a] && g.sent == [a, a];
    assert IsSuccess(200);
    var r2 := g.PostMessageFinished(200, 0);
    assert g.acknowledged == [a] + [b];
    queueAfterDuplicateReply := g.messageQueue;
    acknowledged, sent := g.acknowledged, g.sent;
  }
}
