/** The record types of the enrichment tool (main.go:13-66) and the
    field-by-field remapping of a ranked score and the node data fetched
    for it into one enriched record (main.go:95-114). The source's `uint`
    fields are only ever copied, never computed on, so they are `nat`. */
module Records {

  /** One reachable address of a node, tagged with its network type. */
  datatype OneMLAddress = OneMLAddress(network: string, address: string)

  /** The ranking sub-record of a node's remote data. */
  datatype OneMLNodeRank = OneMLNodeRank(
    capacity: nat,
    channelCount: nat,
    age: nat,
    growth: nat,
    availability: nat)

  /** The decoded per-node document of the remote data source. */
  datatype OneMLData = OneMLData(
    lastUpdate: nat,
    publicKey: string,
    alias: string,
    addresses: seq<OneMLAddress>,
    color: string,
    capacity: nat,
    channelCount: nat,
    nodeRank: OneMLNodeRank)

  /** One entry of the ranked input batch. */
  datatype Score = Score(alias: string, publicKey: string, score: nat)

  /** The merge of one `Score` with the node data fetched for it. */
  datatype EnrichedScore = EnrichedScore(
    score: nat,
    alias: string,
    publicKey: string,
    addresses: seq<string>,
    color: string,
    capacity: nat,
    channelCount: nat,
    rankCapacity: nat,
    rankChannelCount: nat,
    rankAge: nat,
    rankGrowth: nat,
    rankAvailability: nat)

  /** The output document: a generation timestamp and the enriched records. */
  datatype EnrichedList = EnrichedList(lastUpdated: string, data: seq<EnrichedScore>)

  /** The input document: the ranked batch and its own timestamp. */
  datatype BosList = BosList(lastUpdated: string, scores: seq<Score>)

  /** The bare address strings of a node, in order, without network tags. */
  function AddressStrings(addrs: seq<OneMLAddress>): (r: seq<string>)
    ensures |r| == |addrs|
    ensures forall i :: 0 <= i < |addrs| ==> r[i] == addrs[i].address
  {
    if addrs == [] then [] else [addrs[0].address] + AddressStrings(addrs[1..])
  }

  /** Flattening distributes over concatenation: the strings of a joined
      list are the strings of its parts, joined in the same order. */
  lemma AddressStringsAppend(a: seq<OneMLAddress>, b: seq<OneMLAddress>)
    ensures AddressStrings(a + b) == AddressStrings(a) + AddressStrings(b)
  {
  }

  /** The network tags play no part: two address lists with the same
      `addr` strings position by position flatten to the same result,
      and lists that flatten alike agree on every `addr`. */
  lemma AddressStringsIgnoreNetwork(a: seq<OneMLAddress>, b: seq<OneMLAddress>)
    requires |a| == |b|
    ensures AddressStrings(a) == AddressStrings(b)
        <==> forall i :: 0 <= i < |a| ==> a[i].address == b[i].address
  {
  }

  /** The struct literal of the worker: the identity and score come from
      the base record, the descriptive fields and every rank from the
      remote data, and the address list is the one the worker flattened. */
  function Remap(base: Score, remote: OneMLData, addresses: seq<string>): (e: EnrichedScore)
    ensures e.score == base.score && e.alias == base.alias && e.publicKey == base.publicKey
    ensures e.addresses == addresses
    ensures e.color == remote.color && e.capacity == remote.capacity
    ensures e.channelCount == remote.channelCount
    ensures e.rankCapacity == remote.nodeRank.capacity
    ensures e.rankChannelCount == remote.nodeRank.channelCount
    ensures e.rankAge == remote.nodeRank.age
    ensures e.rankGrowth == remote.nodeRank.growth
    ensures e.rankAvailability == remote.nodeRank.availability
  {
    EnrichedScore(
      score := base.score,
      alias := base.alias,
      publicKey := base.publicKey,
      addresses := addresses,
      color := remote.color,
      capacity := remote.capacity,
      channelCount := remote.channelCount,
      rankCapacity := remote.nodeRank.capacity,
      rankChannelCount := remote.nodeRank.channelCount,
      rankAge := remote.nodeRank.age,
      rankGrowth := remote.nodeRank.growth,
      rankAvailability := remote.nodeRank.availability)
  }

  /** The base record an enriched record was built from. */
  function BaseOf(e: EnrichedScore): Score {
    Score(e.alias, e.publicKey, e.score)
  }

  /** The part of an enriched record that comes from the remote data. */
  function RemoteView(e: EnrichedScore): (string, nat, nat, OneMLNodeRank) {
    (e.color, e.capacity, e.channelCount,
     OneMLNodeRank(e.rankCapacity, e.rankChannelCount, e.rankAge, e.rankGrowth, e.rankAvailability))
  }

  /** Round trip: the base record is recovered unchanged from the merge,
      and so are the remote fields the merge keeps. */
  lemma RemapRoundTrip(base: Score, remote: OneMLData, addresses: seq<string>)
    ensures BaseOf(Remap(base, remote, addresses)) == base
    ensures RemoteView(Remap(base, remote, addresses))
         == (remote.color, remote.capacity, remote.channelCount, remote.nodeRank)
  {
  }

  /** The remote document's own `pub_key`, `alias` and `last_update` never
      reach the enriched record: changing them changes nothing. */
  lemma RemapIgnoresRemoteIdentity(base: Score, remote: OneMLData, addresses: seq<string>,
                                   key: string, alias: string, lastUpdate: nat)
    ensures Remap(base, remote, addresses)
         == Remap(base, remote.(publicKey := key, alias := alias, lastUpdate := lastUpdate), addresses)
  {
  }

  /** Conversely, two merges agree exactly when their base records, their
      address lists and the remote fields the merge keeps agree. */
  lemma RemapInjective(b1: Score, r1: OneMLData, a1: seq<string>,
                       b2: Score, r2: OneMLData, a2: seq<string>)
    ensures Remap(b1, r1, a1) == Remap(b2, r2, a2)
        <==> b1 == b2 && a1 == a2 && r1.color == r2.color && r1.capacity == r2.capacity
             && r1.channelCount == r2.channelCount && r1.nodeRank == r2.nodeRank
  {
  }
}
