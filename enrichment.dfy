/** One worker's per-record step (main.go:80-117) as a function of the
    remote source, and the whole batch as a filter-map over the input
    (main.go:143-159): every record yields its enriched form or nothing,
    and a failed download or decode drops that record only.

    The network and the JSON decoder are parameters: `Downloader` gives the
    body fetched from a URL or nothing on a transport error, `Decoder` the
    decoded node document or nothing on a parse error. */
module Enrichment {
  import opened Wrappers
  import opened Records

  newtype byte = x: int | 0 <= x < 256

  type Bytes = seq<byte>

  type Downloader = string -> Option<Bytes>

  type Decoder = Bytes -> Option<OneMLData>

  /** Why a record was dropped; the worker only logs it. */
  datatype Skip = DownloadError(publicKey: string) | ParseError(publicKey: string, payload: Bytes)

  const NodeUrlPrefix: string := "https://1ml.com/node/"
  const NodeUrlSuffix: string := "/json"

  /** The per-node URL the worker downloads. */
  function NodeUrl(publicKey: string): (url: string)
    ensures |url| == |NodeUrlPrefix| + |publicKey| + |NodeUrlSuffix|
    ensures url[..|NodeUrlPrefix|] == NodeUrlPrefix
    ensures url[|NodeUrlPrefix|..|NodeUrlPrefix| + |publicKey|] == publicKey
    ensures url[|NodeUrlPrefix| + |publicKey|..] == NodeUrlSuffix
  {
    NodeUrlPrefix + publicKey + NodeUrlSuffix
  }

  /** Distinct keys are fetched from distinct URLs, so a download can fail
      for one key without failing for any other. */
  lemma NodeUrlInjective(k1: string, k2: string)
    ensures NodeUrl(k1) == NodeUrl(k2) <==> k1 == k2
  {
  }

  /** Download, then decode: the node data for a key, or nothing when
      either step fails. */
  function Lookup(download: Downloader, decode: Decoder, publicKey: string): (r: Option<OneMLData>)
    ensures r.Some? <==> download(NodeUrl(publicKey)).Some? && decode(download(NodeUrl(publicKey)).value).Some?
    ensures r.Some? ==> r == decode(download(NodeUrl(publicKey)).value)
  {
    match download(NodeUrl(publicKey))
    case None => None
    case Some(payload) => decode(payload)
  }

  /** One record through the worker: a download error or a parse error
      skips it, with the reason; otherwise the record is merged with its
      node data, whose addresses are flattened first. */
  function Process(score: Score, download: Downloader, decode: Decoder): (r: Result<EnrichedScore, Skip>)
    ensures r.Success? <==> Lookup(download, decode, score.publicKey).Some?
    ensures r.Success? ==> BaseOf(r.value) == score
    ensures r.Success? ==>
      var d := Lookup(download, decode, score.publicKey).value;
      r.value.addresses == AddressStrings(d.addresses)
      && RemoteView(r.value) == (d.color, d.capacity, d.channelCount, d.nodeRank)
    ensures r.Failure? ==> r.error.publicKey == score.publicKey
    ensures r.Failure? ==> (r.error.DownloadError? <==> download(NodeUrl(score.publicKey)).None?)
    ensures r.Failure? && r.error.ParseError? ==> r.error.payload == download(NodeUrl(score.publicKey)).value
  {
    match download(NodeUrl(score.publicKey))
    case None => Failure(DownloadError(score.publicKey))
    case Some(payload) =>
      match decode(payload)
      case None => Failure(ParseError(score.publicKey, payload))
      case Some(data) => Success(Remap(score, data, AddressStrings(data.addresses)))
  }

  /** What one processed record sends to the result queue: one record or none. */
  function Emitted(r: Result<EnrichedScore, Skip>): (out: seq<EnrichedScore>)
    ensures |out| == if r.Success? then 1 else 0
    ensures r.Success? ==> out[0] == r.value
  {
    match r
    case Success(e) => [e]
    case Failure(_) => []
  }

  /** The batch: every input record in turn, keeping what it emits. */
  function EnrichAll(scores: seq<Score>, download: Downloader, decode: Decoder): (out: seq<EnrichedScore>)
    ensures |out| <= |scores|
    ensures forall e :: e in out ==> BaseOf(e) in scores
  {
    if scores == [] then []
    else Emitted(Process(scores[0], download, decode)) + EnrichAll(scores[1..], download, decode)
  }

  /** Processing two batches one after the other emits the two outputs in turn. */
  lemma {:induction false} EnrichAllAppend(a: seq<Score>, b: seq<Score>, download: Downloader, decode: Decoder)
    ensures EnrichAll(a + b, download, decode) == EnrichAll(a, download, decode) + EnrichAll(b, download, decode)
  {
    if a == [] {
      assert a + b == b;
    } else {
      assert (a + b)[0] == a[0];
      assert (a + b)[1..] == a[1..] + b;
      EnrichAllAppend(a[1..], b, download, decode);
    }
  }

  /** Processing one more record: a failed download or decode leaves the
      output as it was, and otherwise the merge of the record with its
      decoded node data, addresses flattened, is appended. */
  lemma EnrichAllStep(prefix: seq<Score>, x: Score, download: Downloader, decode: Decoder)
    ensures var body := download(NodeUrl(x.publicKey));
      EnrichAll(prefix + [x], download, decode)
      == if body.None? || decode(body.value).None? then EnrichAll(prefix, download, decode)
         else EnrichAll(prefix, download, decode)
              + [Remap(x, decode(body.value).value, AddressStrings(decode(body.value).value.addresses))]
  {
    EnrichAllAppend(prefix, [x], download, decode);
    assert [x][1..] == [];
  }

  /** The record at position `i` contributes exactly what it emits, between
      the outputs of the records before and after it. */
  lemma {:induction false} EnrichAllAt(scores: seq<Score>, i: nat, download: Downloader, decode: Decoder)
    requires i < |scores|
    ensures EnrichAll(scores, download, decode)
         == EnrichAll(scores[..i], download, decode)
          + Emitted(Process(scores[i], download, decode))
          + EnrichAll(scores[i + 1..], download, decode)
  {
    var x, post := scores[i], scores[i + 1..];
    assert scores == scores[..i] + ([x] + post);
    EnrichAllAppend(scores[..i], [x] + post, download, decode);
    assert ([x] + post)[0] == x;
    assert ([x] + post)[1..] == post;
  }

  /** A failed download emits nothing for that record, and the records
      after it are still processed. */
  lemma {:induction false} DownloadFailureSkips(scores: seq<Score>, i: nat, download: Downloader, decode: Decoder)
    requires i < |scores|
    requires download(NodeUrl(scores[i].publicKey)).None?
    ensures EnrichAll(scores, download, decode)
         == EnrichAll(scores[..i], download, decode) + EnrichAll(scores[i + 1..], download, decode)
  {
    EnrichAllAt(scores, i, download, decode);
  }

  /** A payload that does not decode emits nothing for that record, and the
      records after it are still processed. */
  lemma {:induction false} DecodeFailureSkips(scores: seq<Score>, i: nat, download: Downloader, decode: Decoder)
    requires i < |scores|
    requires download(NodeUrl(scores[i].publicKey)).Some?
    requires decode(download(NodeUrl(scores[i].publicKey)).value).None?
    ensures EnrichAll(scores, download, decode)
         == EnrichAll(scores[..i], download, decode) + EnrichAll(scores[i + 1..], download, decode)
  {
    EnrichAllAt(scores, i, download, decode);
  }

  /** Every record of the batch is enriched. */
  ghost predicate AllSucceed(scores: seq<Score>, download: Downloader, decode: Decoder) {
    forall j :: 0 <= j < |scores| ==> Lookup(download, decode, scores[j].publicKey).Some?
  }

  /** The output is as long as the input exactly when no lookup fails. */
  lemma {:induction false} AllSucceedIff(scores: seq<Score>, download: Downloader, decode: Decoder)
    ensures |EnrichAll(scores, download, decode)| == |scores| <==> AllSucceed(scores, download, decode)
  {
    if scores != [] {
      AllSucceedIff(scores[1..], download, decode);
      if AllSucceed(scores, download, decode) {
        assert AllSucceed(scores[1..], download, decode) by {
          forall j | 0 <= j < |scores[1..]|
            ensures Lookup(download, decode, scores[1..][j].publicKey).Some?
          {
            assert scores[1..][j] == scores[j + 1];
          }
        }
      }
      if |EnrichAll(scores, download, decode)| == |scores| {
        forall j | 0 <= j < |scores|
          ensures Lookup(download, decode, scores[j].publicKey).Some?
        {
          if j > 0 {
            assert scores[1..][j - 1] == scores[j];
          }
        }
      }
    }
  }

  /** When no lookup fails, the output holds one record per input record,
      in input order, each the merge of that record with its node data. */
  lemma {:induction false} AllSucceedMapped(scores: seq<Score>, download: Downloader, decode: Decoder)
    requires AllSucceed(scores, download, decode)
    ensures |EnrichAll(scores, download, decode)| == |scores|
    ensures forall j :: 0 <= j < |scores| ==>
      EnrichAll(scores, download, decode)[j] == Process(scores[j], download, decode).value
  {
    AllSucceedIff(scores, download, decode);
    if scores != [] {
      assert AllSucceed(scores[1..], download, decode) by {
        forall j | 0 <= j < |scores[1..]|
          ensures Lookup(download, decode, scores[1..][j].publicKey).Some?
        {
          assert scores[1..][j] == scores[j + 1];
        }
      }
      AllSucceedMapped(scores[1..], download, decode);
      forall j | 0 <= j < |scores|
        ensures EnrichAll(scores, download, decode)[j] == Process(scores[j], download, decode).value
      {
        if j > 0 {
          assert scores[1..][j - 1] == scores[j];
        }
      }
    }
  }

  /** The public keys of a batch of input records. */
  function ScoreKeys(scores: seq<Score>): (keys: seq<string>)
    ensures |keys| == |scores|
    ensures forall j :: 0 <= j < |scores| ==> keys[j] == scores[j].publicKey
  {
    if scores == [] then [] else [scores[0].publicKey] + ScoreKeys(scores[1..])
  }

  /** The base records enriched records were built from. */
  function Bases(es: seq<EnrichedScore>): (bases: seq<Score>)
    ensures |bases| == |es|
    ensures forall j :: 0 <= j < |es| ==> bases[j] == BaseOf(es[j])
  {
    seq(|es|, j requires 0 <= j < |es| => BaseOf(es[j]))
  }

  /** The public keys of a batch of enriched records: those of their bases. */
  function Keys(es: seq<EnrichedScore>): (keys: seq<string>)
    ensures |keys| == |es|
    ensures forall j :: 0 <= j < |es| ==> keys[j] == es[j].publicKey
  {
    ScoreKeys(Bases(es))
  }

  /** Identity bound: each output key is an input key, counted with
      multiplicity, so no key appears more often in the output than in the
      batch; when no lookup fails the two key multisets are equal. */
  lemma {:induction false} KeysBounded(scores: seq<Score>, download: Downloader, decode: Decoder)
    ensures multiset(Keys(EnrichAll(scores, download, decode))) <= multiset(ScoreKeys(scores))
    ensures AllSucceed(scores, download, decode) ==>
      multiset(Keys(EnrichAll(scores, download, decode))) == multiset(ScoreKeys(scores))
  {
    if scores != [] {
      var s := scores[0];
      var head := Emitted(Process(s, download, decode));
      var rest := EnrichAll(scores[1..], download, decode);
      KeysBounded(scores[1..], download, decode);
      KeysAppend(head, rest);
      assert multiset(ScoreKeys(scores)) == multiset{s.publicKey} + multiset(ScoreKeys(scores[1..])) by {
        assert ScoreKeys(scores) == [s.publicKey] + ScoreKeys(scores[1..]);
      }
      assert Keys(head) == if head == [] then [] else [s.publicKey];
      if AllSucceed(scores, download, decode) {
        assert Lookup(download, decode, s.publicKey).Some?;
        assert AllSucceed(scores[1..], download, decode) by {
          forall j | 0 <= j < |scores[1..]|
            ensures Lookup(download, decode, scores[1..][j].publicKey).Some?
          {
            assert scores[1..][j] == scores[j + 1];
          }
        }
      }
    }
  }

  /** The keys of a joined output are the two outputs' keys, joined. */
  lemma {:induction false} KeysAppend(a: seq<EnrichedScore>, b: seq<EnrichedScore>)
    ensures Keys(a + b) == Keys(a) + Keys(b)
  {
    forall j | 0 <= j < |a + b|
      ensures Keys(a + b)[j] == (Keys(a) + Keys(b))[j]
    {
      if j < |a| {
        assert (a + b)[j] == a[j];
      } else {
        assert (a + b)[j] == b[j - |a|];
      }
    }
  }

  /** The output with every record of one key removed. */
  function WithoutKey(es: seq<EnrichedScore>, key: string): (r: seq<EnrichedScore>)
    ensures forall e :: e in r <==> e in es && e.publicKey != key
    ensures |r| <= |es|
  {
    if es == [] then []
    else (if es[0].publicKey == key then [] else [es[0]]) + WithoutKey(es[1..], key)
  }

  /** The same remote source, except that the download of one key's URL fails. */
  function FailDownloadFor(download: Downloader, key: string): (d: Downloader)
    ensures d(NodeUrl(key)).None?
    ensures forall url :: url != NodeUrl(key) ==> d(url) == download(url)
  {
    url => if url == NodeUrl(key) then None else download(url)
  }

  /** Failure isolation: making the download fail for one key removes that
      key's records from the output and leaves every other record, and
      their order, unchanged. */
  lemma {:induction false} FailureIsolation(scores: seq<Score>, download: Downloader, decode: Decoder, key: string)
    ensures EnrichAll(scores, FailDownloadFor(download, key), decode)
         == WithoutKey(EnrichAll(scores, download, decode), key)
  {
    if scores != [] {
      var failing := FailDownloadFor(download, key);
      var s := scores[0];
      var rest := EnrichAll(scores[1..], download, decode);
      var head := Emitted(Process(s, download, decode));
      FailureIsolation(scores[1..], download, decode, key);
      WithoutKeyAppend(head, rest, key);
      if s.publicKey == key {
        assert Emitted(Process(s, failing, decode)) == [];
        assert WithoutKey(head, key) == [];
      } else {
        NodeUrlInjective(s.publicKey, key);
        assert Process(s, failing, decode) == Process(s, download, decode);
        assert WithoutKey(head, key) == head;
      }
    }
  }

  /** Removing a key distributes over concatenation. */
  lemma {:induction false} WithoutKeyAppend(a: seq<EnrichedScore>, b: seq<EnrichedScore>, key: string)
    ensures WithoutKey(a + b, key) == WithoutKey(a, key) + WithoutKey(b, key)
  {
    if a == [] {
      assert a + b == b;
    } else {
      assert (a + b)[1..] == a[1..] + b;
      WithoutKeyAppend(a[1..], b, key);
    }
  }

  /** Order independence: processing the records of a batch in any order
      emits the same multiset of enriched records. */
  lemma {:induction false} EnrichAllPermutation(a: seq<Score>, b: seq<Score>, download: Downloader, decode: Decoder)
    requires multiset(a) == multiset(b)
    ensures multiset(EnrichAll(a, download, decode)) == multiset(EnrichAll(b, download, decode))
    decreases |a|
  {
    if a != [] {
      var x := a[0];
      assert x in multiset(b);
      var j :| 0 <= j < |b| && b[j] == x;
      var b' := b[..j] + b[j + 1..];
      assert b == b[..j] + [x] + b[j + 1..];
      assert a == [x] + a[1..];
      assert multiset(b) == multiset(b[..j]) + multiset{x} + multiset(b[j + 1..]);
      assert multiset(a) == multiset{x} + multiset(a[1..]);
      assert multiset(b') == multiset(b[..j]) + multiset(b[j + 1..]);
      assert multiset(a[1..]) == multiset(a) - multiset{x};
      assert multiset(b') == multiset(b) - multiset{x};
      EnrichAllPermutation(a[1..], b', download, decode);
      EnrichAllAt(b, j, download, decode);
      EnrichAllAppend(b[..j], b[j + 1..], download, decode);
    }
  }

  /** The concatenation of a sequence of sequences. */
  function Flatten<T>(xss: seq<seq<T>>): seq<T>
  {
    if xss == [] then [] else xss[0] + Flatten(xss[1..])
  }

  /** The outputs of several workers, one batch share each. */
  function EnrichShares(shares: seq<seq<Score>>, download: Downloader, decode: Decoder): (outs: seq<seq<EnrichedScore>>)
    ensures |outs| == |shares|
    ensures forall w :: 0 <= w < |shares| ==> outs[w] == EnrichAll(shares[w], download, decode)
  {
    seq(|shares|, w requires 0 <= w < |shares| => EnrichAll(shares[w], download, decode))
  }

  /** Worker-pool independence: however the batch is dealt out among
      workers, the pooled outputs hold the same multiset of records as one
      worker processing the whole batch. */
  lemma {:induction false} WorkerSharesAgree(scores: seq<Score>, shares: seq<seq<Score>>, download: Downloader, decode: Decoder)
    requires multiset(Flatten(shares)) == multiset(scores)
    ensures multiset(Flatten(EnrichShares(shares, download, decode)))
         == multiset(EnrichAll(scores, download, decode))
  {
    EnrichAllFlatten(shares, download, decode);
    EnrichAllPermutation(Flatten(shares), scores, download, decode);
  }

  /** One worker running the shares back to back emits the workers'
      outputs back to back. */
  lemma {:induction false} EnrichAllFlatten(shares: seq<seq<Score>>, download: Downloader, decode: Decoder)
    ensures EnrichAll(Flatten(shares), download, decode) == Flatten(EnrichShares(shares, download, decode))
  {
    if shares != [] {
      EnrichAllFlatten(shares[1..], download, decode);
      EnrichAllAppend(shares[0], Flatten(shares[1..]), download, decode);
      assert EnrichShares(shares, download, decode)[1..] == EnrichShares(shares[1..], download, decode);
    }
  }

  /** A worked example: one ranked record whose node
      document downloads and decodes gives one enriched record, with the
      identity and score from the ranking (not the document's own key and
      alias) and everything else from the node document, its one address
      reduced to the bare string. */
  lemma SingleRecordExample(download: Downloader, decode: Decoder, payload: Bytes)
    requires download(NodeUrl("pk1")) == Some(payload)
    requires decode(payload) == Some(OneMLData(0, "pk-remote", "B", [OneMLAddress("tcp", "1.2.3.4:9735")],
                                               "#ff0000", 500, 3, OneMLNodeRank(1, 2, 3, 4, 5)))
    ensures EnrichAll([Score("A", "pk1", 10)], download, decode)
         == [EnrichedScore(10, "A", "pk1", ["1.2.3.4:9735"], "#ff0000", 500, 3, 1, 2, 3, 4, 5)]
  {
    assert AddressStrings([OneMLAddress("tcp", "1.2.3.4:9735")]) == ["1.2.3.4:9735"];
    assert [Score("A", "pk1", 10)][1..] == [];
  }
}
