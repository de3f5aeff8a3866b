/** The imperative side of the tool: the worker loop (main.go:72-118) and
    the coordinator that feeds the batch, closes the queues and gathers
    the results (main.go:136-165). The pool of goroutines is replaced by a
    single worker that takes the records in input order; the lemmas
    EnrichAllPermutation and WorkerSharesAgree say that any other order or
    split among workers gathers the same multiset of records. */
module Pipeline {
  import opened Wrappers
  import opened Records
  import opened Enrichment

  /** The buffered result channel `make(chan EnrichedScore, n)`: a FIFO
      queue with a fixed capacity that is closed once, after which it can
      only be drained. */
  class ResultQueue {
    var items: seq<EnrichedScore>
    const capacity: nat
    var closed: bool

    ghost predicate Valid()
      reads this
    {
      |items| <= capacity
    }

    constructor (capacity: nat)
      ensures Valid()
      ensures items == [] && this.capacity == capacity && !closed
    {
      items := [];
      this.capacity := capacity;
      closed := false;
    }

    /** A send that never blocks: it needs a free slot, and sending on a
        closed channel is a panic in the source's language. */
    method Send(e: EnrichedScore)
      requires Valid() && !closed && |items| < capacity
      modifies this
      ensures Valid() && !closed
      ensures items == old(items) + [e]
    {
      items := items + [e];
    }

    /** Closing happens once; closing twice would panic. */
    method Close()
      requires Valid() && !closed
      modifies this
      ensures Valid() && closed && items == old(items)
    {
      closed := true;
    }

    /** Receive on a closed channel: the oldest buffered record, or
        nothing once the buffer is empty (the end of `range`). */
    method Receive() returns (e: Option<EnrichedScore>)
      requires Valid() && closed
      modifies this
      ensures Valid() && closed
      ensures old(items) == [] ==> e.None? && items == []
      ensures old(items) != [] ==> e == Some(old(items)[0]) && items == old(items)[1..]
    {
      if items == [] {
        e := None;
      } else {
        e := Some(items[0]);
        items := items[1..];
      }
    }
  }

  /** The loop that flattens a node's addresses (main.go:95-98): one bare
      string per address, in order, network tags dropped. */
  method CollectAddresses(addrs: seq<OneMLAddress>) returns (addresses: seq<string>)
    ensures addresses == AddressStrings(addrs)
  {
    addresses := [];
    for i := 0 to |addrs|
      invariant |addresses| == i
      invariant forall k :: 0 <= k < i ==> addresses[k] == addrs[k].address
    {
      addresses := addresses + [addrs[i].address];
    }
  }

  /** One worker draining its input: each record whose download and decode
      both succeed is remapped and sent; any failure skips to the next
      record. Every record sends at most once, so a queue with room for
      the whole batch never fills. */
  method Worker(scores: seq<Score>, download: Downloader, decode: Decoder, results: ResultQueue)
    requires results.Valid() && !results.closed
    requires |results.items| + |scores| <= results.capacity
    modifies results
    ensures results.Valid() && !results.closed
    ensures results.items == old(results.items) + EnrichAll(scores, download, decode)
  {
    for i := 0 to |scores|
      invariant results.Valid() && !results.closed
      invariant results.items == old(results.items) + EnrichAll(scores[..i], download, decode)
    {
      var score := scores[i];
      assert scores[..i + 1] == scores[..i] + [score];
      EnrichAllStep(scores[..i], score, download, decode);
      var nodeBytes := download(NodeUrl(score.publicKey));
      if nodeBytes.None? {
        continue;
      }
      var oneMLData := decode(nodeBytes.value);
      if oneMLData.None? {
        continue;
      }
      var addresses := CollectAddresses(oneMLData.value.addresses);
      var enriched := Remap(score, oneMLData.value, addresses);
      results.Send(enriched);
    }
    assert scores[..|scores|] == scores;
  }

  /** The coordinator's drain (main.go:156-159): receive until the closed
      queue is empty, appending in receive order. */
  method Gather(results: ResultQueue) returns (enriched: seq<EnrichedScore>)
    requires results.Valid() && results.closed
    modifies results
    ensures enriched == old(results.items)
    ensures results.Valid() && results.closed && results.items == []
  {
    enriched := [];
    while true
      invariant results.Valid() && results.closed
      invariant enriched + results.items == old(results.items)
      decreases |results.items|
    {
      var e := results.Receive();
      if e.None? {
        break;
      }
      enriched := enriched + [e.value];
    }
  }

  /** One run over a decoded input list: size the result queue to the
      batch, let the worker process every record, close the queue, drain
      it and stamp the list with the given generation time. */
  method Run(bosList: BosList, now: string, download: Downloader, decode: Decoder) returns (list: EnrichedList)
    ensures list.lastUpdated == now
    ensures list.data == EnrichAll(bosList.scores, download, decode)
  {
    var queue := new ResultQueue(|bosList.scores|);
    Worker(bosList.scores, download, decode, queue);
    queue.Close();
    var enriched := Gather(queue);
    list := EnrichedList(now, enriched);
  }
}
