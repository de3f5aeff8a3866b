# Node-score enrichment pipeline, modelled in Dafny

The tool reads a ranked batch of Lightning node scores (`Score`: alias,
public key, score), downloads a per-node JSON document for each one
(`OneMLData`: addresses, colour, capacity, channel count and a
`OneMLNodeRank` of five ranks), and merges the two into an
`EnrichedScore`. A download or decode failure drops that record and the
worker moves on. The coordinator gathers every emitted record into the
`data` of an `EnrichedList` stamped with the generation time.

Files:

- `wrappers.dfy`: `Option` and `Result`.
- `records.dfy` (module `Records`): the record types of `main.go`.
  It also holds the address flattening (`AddressStrings`) and the struct
  literal of the worker (`Remap`), with their lemmas.
- `enrichment.dfy` (module `Enrichment`): the per-record step as a function
  of the remote source (`Process`) and the batch as a filter-map
  (`EnrichAll`). It holds the lemmas about failures, bounds, isolation and
  order independence.
- `pipeline.dfy` (module `Pipeline`): the imperative code.
  `ResultQueue` is the buffered result channel. `CollectAddresses` is the
  address loop and `Worker` the worker loop. `Gather` is the drain and
  `Run` is the coordinator.

The network and the JSON decoder are parameters. `Downloader` maps a URL
to the fetched body, or to nothing on a transport error. `Decoder` maps a
body to the decoded node document, or to nothing on a parse error. The
per-node URL is `https://1ml.com/node/<public key>/json`, as in the source.

The goroutine pool is replaced by one worker that takes the records in
input order. Two lemmas describe the other schedules, for a remote source
that answers each URL the same way throughout a run:
`EnrichAllPermutation` says that any processing order gathers the same
multiset of records. `WorkerSharesAgree` says that any way of dealing the
batch out to several workers gathers the same multiset as one worker.

A failed fetch emits nothing for that record; no partial record is built
(main.go:83-86).

## Model

| member | source | states |
|---|---|---|
| `Records.AddressStrings` | main.go:95-98 | one bare `addr` string per address, same length, same order, position by position |
| `Records.AddressStringsAppend` | main.go:95-98 | flattening a joined address list gives the two flattened lists joined |
| `Records.AddressStringsIgnoreNetwork` | main.go:95-98 | two address lists flatten alike exactly when their `addr` strings agree position by position, whatever their `network` tags |
| `Records.Remap` | main.go:101-114 | score, alias and public key come from the base record; colour, capacity, channel count and the five ranks from the remote data; the addresses are the flattened list |
| `Records.RemapRoundTrip` | main.go:101-114 | the base record and the kept remote fields are recovered unchanged from the merged record |
| `Records.RemapIgnoresRemoteIdentity` | main.go:101-104 | the remote document's own `pub_key`, `alias` and `last_update` never affect the merged record |
| `Records.RemapInjective` | main.go:101-114 | two merges are equal if and only if their base records, address lists and kept remote fields are equal |
| `Enrichment.NodeUrl` | main.go:82 | the download URL is the fixed prefix, the public key, then `/json` |
| `Enrichment.NodeUrlInjective` | main.go:82 | two keys give the same URL if and only if they are equal |
| `Enrichment.Lookup` | main.go:82-93 | node data is found exactly when the download succeeds and its body decodes, and it is the decoded body |
| `Enrichment.Process` | main.go:80-117 | a record is enriched exactly when its lookup succeeds; the result keeps the base record, the flattened addresses, and the colour, capacity, channel count and ranks of the decoded data; a failure names the key, is a download error exactly when the download failed, and a parse error carries the downloaded body |
| `Enrichment.Emitted` | main.go:83-117 | a processed record sends one record on success and none on failure |
| `Enrichment.EnrichAll` | main.go:143-159 | the output is no longer than the batch, and every output record's base record is an input record |
| `Enrichment.EnrichAllStep` | main.go:82-117 | one more record leaves the output unchanged when its download or decode fails, and otherwise appends its merge with the decoded data |
| `Enrichment.EnrichAllAppend` | main.go:143-159 | processing two batches in turn emits their two outputs in turn |
| `Enrichment.EnrichAllAt` | main.go:72-118 | the record at any position contributes exactly what it emits, between the outputs of the records before and after it |
| `Enrichment.DownloadFailureSkips` | main.go:82-86 | a failed download emits nothing for that record, and the records after it are still processed |
| `Enrichment.DecodeFailureSkips` | main.go:88-93 | a body that does not decode emits nothing for that record, and the records after it are still processed |
| `Enrichment.AllSucceedIff` | main.go:143-159 | the output is as long as the batch if and only if every lookup succeeds |
| `Enrichment.AllSucceedMapped` | main.go:143-159 | when every lookup succeeds, the output holds one record per input record, each the merge of that record with its node data |
| `Enrichment.Bases` | main.go:101-104 | the base record of every enriched record, position by position |
| `Enrichment.KeysBounded` | main.go:137-159 | the output's public keys are a sub-multiset of the batch's keys, and equal to them when every lookup succeeds |
| `Enrichment.WithoutKey` | main.go:83-93 | the records kept are exactly those of the output whose key differs from the removed one |
| `Enrichment.FailDownloadFor` | main.go:82-86 | the altered source fails for the one key's URL and answers every other URL as before |
| `Enrichment.FailureIsolation` | main.go:82-93 | making one key's download fail removes exactly that key's records and leaves all others, in order |
| `Enrichment.EnrichAllPermutation` | main.go:136-159 | processing the batch in any order gathers the same multiset of records |
| `Enrichment.EnrichAllFlatten` | main.go:138-159 | one worker running several shares back to back emits the shares' outputs back to back |
| `Enrichment.WorkerSharesAgree` | main.go:138-159 | however the batch is dealt out among workers, the pooled outputs hold the same multiset of records as one worker on the whole batch |
| `Enrichment.SingleRecordExample` | main.go:95-114 | one record with key `pk1` and a decodable node document yields exactly the expected enriched record, with alias and key from the ranking even though the document carries others |
| `Pipeline.ResultQueue.constructor` | main.go:137 | a new result queue is empty, open, and has the given capacity |
| `Pipeline.ResultQueue.Send` | main.go:117 | a send needs an open queue with a free slot and appends the record |
| `Pipeline.ResultQueue.Close` | main.go:153 | closing an open queue keeps its buffered records |
| `Pipeline.ResultQueue.Receive` | main.go:157 | a closed queue yields its oldest record, or nothing once empty |
| `Pipeline.CollectAddresses` | main.go:95-98 | the address loop builds exactly the flattened address list |
| `Pipeline.Worker` | main.go:72-118 | the worker appends to the queue exactly the filter-map of its records, and never overfills a queue with room for its batch |
| `Pipeline.Gather` | main.go:156-159 | draining the closed queue returns its records in queue order and leaves it empty |
| `Pipeline.Run` | main.go:136-165 | the output list carries the given timestamp and the filter-map of the whole batch |

## Left out

- `downloadFromAPI` (main.go:180-207) is network I/O: the HTTP client, its 2-second timeout and the request construction. It is the `Downloader` parameter, which may fail for any URL.
- An unreadable response body aborts the process (main.go:201-204). The model has no recoverable case for it.
- Fetching and parsing the initial list (main.go:122-132) abort the process on failure. `Run` starts from the decoded `BosList`.
- `json.Unmarshal` and `json.MarshalIndent` are library codecs. Decoding is the `Decoder` parameter, and the output list is left as a value.
- The clock and its format (main.go:161-163) are left out. The timestamp is the `now` parameter of `Run`.
- Writing the file (main.go:167-177) and all logging are left out. The skip reasons that the worker logs are the `Skip` values of `Process`.
- The goroutines, the unbuffered input channel, the `WaitGroup` and `runtime.NumCPU()` (main.go:134-153) are left out. One sequential worker stands for the pool, and the multiset lemmas stand for the scheduling.
- Pipeline.Run: its output is in input order, the order of one worker. The source's order depends on scheduling, so only the multiset of `data` is promised, as `EnrichAllPermutation` and `WorkerSharesAgree` state.
- Go's nil-versus-empty slice only shows in the JSON encoding. It applies to `Addresses` of a node without addresses (main.go:95) and to `Data` when no record is gathered (main.go:156), which then encodes as `null`. The model uses the empty sequence for both.
- The lookup is a fixed function of the URL. A key fetched twice gets one answer, and a timeout cannot depend on when a record is processed, whereas the source makes a separate request with its own 2-second timeout per record (main.go:82, main.go:180-192). The order-independence lemmas, the equality half of `KeysBounded` and `FailureIsolation` hold for a remote that answers consistently within a run.
- The `uint` fields are only copied, never computed on. They are `nat`, and no width is modelled.
