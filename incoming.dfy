/**
 * What the parser can observe of an IncomingMessage, and the backpressure
 * coupler that routes body chunks and the end-of-stream marker to it.
 * The message's own stream machinery (draining the queue on resume, event
 * listeners) is not part of this model: emissions are kept as a log.
 */
module Incoming {
  import opened Strings

  datatype MessageFlag = Paused | Upgrade | Complete | Readable

  /** One call the parser made on the message's readable side. */
  datatype Emission = Data(chunk: Bytes) | End

  /**
   * The delivery-related state of a message: its flags, its pending queue
   * (`None` is the EOF sentinel `0`) and the log of emissions.
   */
  datatype Delivery = Delivery(flags: set<MessageFlag>, pendings: seq<Option<Bytes>>, emitted: seq<Emission>)

  /** The coupler's test: queue when paused or when something is already queued. */
  predicate Queues(d: Delivery)
    ensures Paused in d.flags ==> Queues(d)
    ensures Paused !in d.flags ==> (Queues(d) <==> d.pendings != [])
  {
    Paused in d.flags || |d.pendings| > 0
  }

  /** The emissions as queue entries: a chunk for `emitData`, the sentinel for `emitEnd`. */
  function AsEntries(es: seq<Emission>): (r: seq<Option<Bytes>>)
    ensures |r| == |es|
    ensures forall i :: 0 <= i < |es| ==> r[i] == (if es[i].Data? then Some(es[i].chunk) else None)
  {
    if es == [] then []
    else AsEntries(es[..|es| - 1]) + [if es[|es| - 1].Data? then Some(es[|es| - 1].chunk) else None]
  }

  /** Everything delivered so far, emitted first and then still queued, in delivery order. */
  function Observed(d: Delivery): seq<Option<Bytes>>
  {
    AsEntries(d.emitted) + d.pendings
  }

  lemma AsEntriesSnoc(es: seq<Emission>, e: Emission)
    ensures AsEntries(es + [e]) == AsEntries(es) + [if e.Data? then Some(e.chunk) else None]
  {
    assert (es + [e])[..|es|] == es;
  }

  /** The member `onBody`: route one chunk. */
  function Body(d: Delivery, chunk: Bytes): (r: Delivery)
    ensures r.flags == d.flags
    ensures Observed(r) == Observed(d) + [Some(chunk)]
    ensures Queues(d) ==> r.emitted == d.emitted && r.pendings == d.pendings + [Some(chunk)]
    ensures !Queues(d) ==> r.pendings == [] && r.emitted == d.emitted + [Data(chunk)]
  {
    AsEntriesSnoc(d.emitted, Data(chunk));
    if Queues(d) then d.(pendings := d.pendings + [Some(chunk)])
    else d.(emitted := d.emitted + [Data(chunk)])
  }

  /** The end-of-message step of `onMessageComplete`: route the end of stream, unless upgraded. */
  function Eof(d: Delivery): (r: Delivery)
    ensures Upgrade in d.flags ==> r == d
    ensures Upgrade !in d.flags ==> Observed(r) == Observed(d) + [None]
    ensures Upgrade !in d.flags && Queues(d) ==>
              r.flags == d.flags && r.emitted == d.emitted && r.pendings == d.pendings + [None]
    ensures Upgrade !in d.flags && !Queues(d) ==>
              r.flags == d.flags - {Readable} && r.pendings == [] && r.emitted == d.emitted + [End]
  {
    AsEntriesSnoc(d.emitted, End);
    if Upgrade in d.flags then d
    else if Queues(d) then d.(pendings := d.pendings + [None])
    else d.(flags := d.flags - {Readable}, emitted := d.emitted + [End])
  }

  /** A run of `onBody` callbacks. */
  function FeedBody(d: Delivery, chunks: seq<Bytes>): (r: Delivery)
    ensures r.flags == d.flags
    decreases |chunks|
  {
    if chunks == [] then d else Body(FeedBody(d, chunks[..|chunks| - 1]), chunks[|chunks| - 1])
  }

  /** The chunks as queue entries. */
  function Entries(chunks: seq<Bytes>): (r: seq<Option<Bytes>>)
    ensures |r| == |chunks|
    ensures forall i :: 0 <= i < |chunks| ==> r[i] == Some(chunks[i])
  {
    seq(|chunks|, i requires 0 <= i < |chunks| => Some(chunks[i]))
  }

  /** The chunks as `emitData` calls. */
  function DataCalls(chunks: seq<Bytes>): (r: seq<Emission>)
    ensures |r| == |chunks|
    ensures forall i :: 0 <= i < |chunks| ==> r[i] == Data(chunks[i])
  {
    seq(|chunks|, i requires 0 <= i < |chunks| => Data(chunks[i]))
  }

  /** Whatever the flags, every chunk and the end of stream are delivered once each, in arrival order. */
  lemma {:induction false} OrderPreserved(d: Delivery, chunks: seq<Bytes>)
    ensures Observed(FeedBody(d, chunks)) == Observed(d) + Entries(chunks)
    ensures Upgrade !in d.flags ==> Observed(Eof(FeedBody(d, chunks))) == Observed(d) + Entries(chunks) + [None]
    decreases |chunks|
  {
    if chunks != [] {
      var init := chunks[..|chunks| - 1];
      OrderPreserved(d, init);
      assert Entries(chunks) == Entries(init) + [Some(chunks[|chunks| - 1])];
    }
  }

  /** Once the coupler queues, it keeps queueing: a paused message or a non-empty queue receives every later chunk. */
  lemma {:induction false} QueuedRun(d: Delivery, chunks: seq<Bytes>)
    requires Queues(d)
    ensures FeedBody(d, chunks) == d.(pendings := d.pendings + Entries(chunks))
    decreases |chunks|
  {
    if chunks != [] {
      var init := chunks[..|chunks| - 1];
      QueuedRun(d, init);
      assert Entries(chunks) == Entries(init) + [Some(chunks[|chunks| - 1])];
    }
  }

  /**
   * A message paused throughout: every chunk, then one EOF sentinel, land on
   * the queue in arrival order, and nothing is emitted.
   */
  lemma PausedMessage(d: Delivery, chunks: seq<Bytes>)
    requires Paused in d.flags && Upgrade !in d.flags
    ensures var r := Eof(FeedBody(d, chunks));
            r.pendings == d.pendings + Entries(chunks) + [None] && r.emitted == d.emitted && r.flags == d.flags
  {
    QueuedRun(d, chunks);
  }

  /** A message never paused with an empty queue: every chunk is emitted directly, then the end, and the queue stays empty. */
  lemma {:induction false} LiveRun(d: Delivery, chunks: seq<Bytes>)
    requires !Queues(d)
    ensures FeedBody(d, chunks) == d.(emitted := d.emitted + DataCalls(chunks))
    decreases |chunks|
  {
    if chunks != [] {
      var init := chunks[..|chunks| - 1];
      LiveRun(d, init);
      var t := FeedBody(d, init);
      assert !Queues(t);
      assert FeedBody(d, chunks) == Body(t, chunks[|chunks| - 1]);
      assert DataCalls(chunks) == DataCalls(init) + [Data(chunks[|chunks| - 1])];
    }
  }

  /** Body chunks only ever add `emitData` calls: nothing emitted before is changed and no end of stream is added. */
  lemma {:induction false} BodyOnlyData(d: Delivery, chunks: seq<Bytes>)
    ensures var r := FeedBody(d, chunks);
            |d.emitted| <= |r.emitted| && r.emitted[..|d.emitted|] == d.emitted &&
            forall i :: |d.emitted| <= i < |r.emitted| ==> r.emitted[i].Data?
    decreases |chunks|
  {
    if chunks != [] {
      BodyOnlyData(d, chunks[..|chunks| - 1]);
    }
  }

  /** An upgraded message never gets an end of stream: only body data is ever emitted on it. */
  lemma UpgradedNoEnd(d: Delivery, chunks: seq<Bytes>)
    requires Upgrade in d.flags
    ensures var r := Eof(FeedBody(d, chunks));
            |d.emitted| <= |r.emitted| && r.emitted[..|d.emitted|] == d.emitted && forall i :: |d.emitted| <= i < |r.emitted| ==> r.emitted[i] != End
  {
    BodyOnlyData(d, chunks);
  }

  /** The observable record of a message under construction or being fed. */
  class IncomingMessage {
    var url: Option<Str>
    var httpVersion: Str
    var requestMethod: Option<Str>
    var statusCode: Option<int>
    var headerLines: seq<(Str, Str)>
    var flags: set<MessageFlag>
    var pendings: seq<Option<Bytes>>
    var emitted: seq<Emission>

    function Snapshot(): Delivery
      reads this
    {
      Delivery(flags, pendings, emitted)
    }

    /** `IncomingMessage::create`: a readable message with nothing set, queued or emitted. */
    constructor ()
      ensures url == None && httpVersion == [] && requestMethod == None && statusCode == None
      ensures headerLines == [] && flags == {Readable} && pendings == [] && emitted == []
    {
      url, httpVersion, requestMethod, statusCode := None, [], None, None;
      headerLines, flags, pendings, emitted := [], {Readable}, [], [];
    }
  }
}
