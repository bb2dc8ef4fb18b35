/**
 * The metadata resolver of the market-data service: the symbol → CoinGecko id
 * table (`mapToCoinGeckoId`) and the batched logo lookup
 * (`fetchCoinGeckoDetails`), which asks for at most 50 ids per request,
 * pauses one second after every successful request that is not the last,
 * skips a chunk whose request fails, and caches the merged map under a key
 * derived from the whole id list.
 *
 * The reply to each chunk's request is a parameter: a total function from the
 * chunk's ids to `Some(coins)` or `None` (the request failed).
 */
module Metadata {
  import opened Common
  import opened Strings
  import opened MemoryCache

  /** CoinGecko allows up to 50 ids per request. */
  const ChunkSize: nat := 50

  const BatchPrefix: string := "COINGECKO_BATCH_"

  /** One entry of a `/coins/markets` reply: the coin's id and its image URL. */
  datatype CoinImage = CoinImage(id: string, image: string)

  /** One step of the batch loop: a request for a chunk of ids, or the one-second pause. */
  datatype Step = Request(ids: seq<string>) | Pause

  type Replies = seq<string> -> Option<seq<CoinImage>>

  /** The cache key of a batch: `COINGECKO_BATCH_` followed by the ids joined with `_`. */
  function BatchKey(ids: seq<string>): (key: string)
    ensures |key| >= |BatchPrefix| && key[..|BatchPrefix|] == BatchPrefix
    ensures key != RateKey
  {
    var key := BatchPrefix + Join(ids, "_");
    assert key[0] == 'C' && RateKey[0] == 'U';
    key
  }

  /** The number of requests the loop issues for `n` ids: the ceiling of n / 50. */
  function ChunkCount(n: nat): nat {
    (n + ChunkSize - 1) / ChunkSize
  }

  /** The consecutive slices of at most 50 ids that the loop requests, in order. */
  function Chunks(ids: seq<string>): seq<seq<string>>
    decreases |ids|
  {
    if ids == [] then []
    else if |ids| <= ChunkSize then [ids]
    else [ids[..ChunkSize]] + Chunks(ids[ChunkSize..])
  }

  function Flatten(chunks: seq<seq<string>>): seq<string> {
    if chunks == [] then [] else chunks[0] + Flatten(chunks[1..])
  }

  /** The ids still to be requested once the loop index has reached `i`. */
  function Rest(ids: seq<string>, i: nat): seq<string> {
    if i <= |ids| then ids[i..] else []
  }

  /** There are ceil(n/50) chunks, each of 1 to 50 ids, and together they are the ids in order. */
  lemma {:induction false} ChunksPartition(ids: seq<string>)
    ensures |Chunks(ids)| == ChunkCount(|ids|)
    ensures Flatten(Chunks(ids)) == ids
    ensures forall k :: 0 <= k < |Chunks(ids)| ==> 1 <= |Chunks(ids)[k]| <= ChunkSize
    decreases |ids|
  {
    if |ids| > ChunkSize {
      ChunksPartition(ids[ChunkSize..]);
      assert ids[..ChunkSize] + ids[ChunkSize..] == ids;
      var cs := Chunks(ids);
      assert cs[1..] == Chunks(ids[ChunkSize..]);
      forall k | 0 <= k < |cs|
        ensures 1 <= |cs[k]| <= ChunkSize
      {
        if k > 0 { assert cs[k] == Chunks(ids[ChunkSize..])[k - 1]; }
      }
    }
  }

  /** Chunk k is exactly `ids[50k .. min(50k + 50, n))`. */
  lemma {:induction false} ChunkAt(ids: seq<string>, k: nat)
    requires k < |Chunks(ids)|
    ensures k * ChunkSize < |ids|
    ensures Chunks(ids)[k] == ids[k * ChunkSize .. Min(k * ChunkSize + ChunkSize, |ids|)]
    decreases |ids|
  {
    if k > 0 {
      assert |ids| > ChunkSize;
      var rest := ids[ChunkSize..];
      assert Chunks(ids)[k] == Chunks(rest)[k - 1];
      ChunkAt(rest, k - 1);
      var lo := (k - 1) * ChunkSize;
      assert lo + ChunkSize == k * ChunkSize;
      var hi := Min(lo + ChunkSize, |rest|);
      assert hi + ChunkSize == Min(k * ChunkSize + ChunkSize, |ids|);
      assert rest[lo..hi] == ids[lo + ChunkSize..hi + ChunkSize];
    } else if |ids| > ChunkSize {
      assert Chunks(ids)[0] == ids[..ChunkSize];
    } else {
      assert Chunks(ids)[0] == ids;
    }
  }

  /** The chunk requested when the loop index is `i`, and what is left after it. */
  lemma ChunksStep(ids: seq<string>, i: nat)
    requires i < |ids|
    ensures Chunks(Rest(ids, i)) ==
            [ids[i..Min(i + ChunkSize, |ids|)]] + Chunks(Rest(ids, i + ChunkSize))
    ensures Chunks(Rest(ids, i + ChunkSize)) == [] <==> i + ChunkSize >= |ids|
  {
    var r := ids[i..];
    assert Rest(ids, i) == r;
    if |r| > ChunkSize {
      assert r[..ChunkSize] == ids[i..i + ChunkSize];
      assert r[ChunkSize..] == ids[i + ChunkSize..];
      assert Rest(ids, i + ChunkSize) == r[ChunkSize..];
    } else {
      assert ids[i..Min(i + ChunkSize, |ids|)] == r;
      assert Rest(ids, i + ChunkSize) == [];
    }
  }

  /** `response.data.forEach(coin => logoUrls[coin.id] = coin.image)`: later coins overwrite earlier ones. */
  function Absorb(logos: map<string, string>, coins: seq<CoinImage>): map<string, string>
    decreases |coins|
  {
    if coins == [] then logos
    else Absorb(logos, coins[..|coins| - 1])[coins[|coins| - 1].id := coins[|coins| - 1].image]
  }

  /** The merged map once the loop has handled `chunks` in order; a failed chunk contributes nothing. */
  function Collected(chunks: seq<seq<string>>, replies: Replies): map<string, string>
    decreases |chunks|
  {
    if chunks == [] then map[]
    else
      var before := Collected(chunks[..|chunks| - 1], replies);
      match replies(chunks[|chunks| - 1])
      case None => before
      case Some(coins) => Absorb(before, coins)
  }

  /** What the loop does, step by step: each chunk's request, then the pause if it succeeded and is not the last. */
  function Transcript(chunks: seq<seq<string>>, replies: Replies): seq<Step>
    decreases |chunks|
  {
    if chunks == [] then []
    else
      [Request(chunks[0])]
      + (if replies(chunks[0]).Some? && |chunks| > 1 then [Pause] else [])
      + Transcript(chunks[1..], replies)
  }

  function IdsOf(coins: seq<CoinImage>): set<string> {
    set j | 0 <= j < |coins| :: coins[j].id
  }

  /** Chunk k was answered and its reply lists `id`. */
  ghost predicate SuppliedBy(chunks: seq<seq<string>>, replies: Replies, k: int, id: string) {
    0 <= k < |chunks| && replies(chunks[k]).Some? && id in IdsOf(replies(chunks[k]).value)
  }

  lemma {:induction false} AbsorbKeys(logos: map<string, string>, coins: seq<CoinImage>)
    ensures Absorb(logos, coins).Keys == logos.Keys + IdsOf(coins)
    decreases |coins|
  {
    if coins != [] {
      var init := coins[..|coins| - 1];
      AbsorbKeys(logos, init);
      assert IdsOf(coins) == IdsOf(init) + {coins[|coins| - 1].id} by {
        forall id | id in IdsOf(coins) ensures id in IdsOf(init) + {coins[|coins| - 1].id} {
          var j :| 0 <= j < |coins| && coins[j].id == id;
          if j < |coins| - 1 { assert init[j] == coins[j]; }
        }
        forall id | id in IdsOf(init) ensures id in IdsOf(coins) {
          var j :| 0 <= j < |init| && init[j].id == id;
          assert coins[j] == init[j];
        }
      }
    }
  }

  /**
   * The merged map has an entry for exactly the ids that some answered chunk
   * lists: a failed chunk is skipped and every other chunk's entries are kept.
   */
  lemma {:induction false} CollectedKeys(chunks: seq<seq<string>>, replies: Replies, id: string)
    ensures id in Collected(chunks, replies) <==> exists k :: SuppliedBy(chunks, replies, k, id)
    decreases |chunks|
  {
    if chunks != [] {
      var n := |chunks| - 1;
      var init := chunks[..n];
      CollectedKeys(init, replies, id);
      var before := Collected(init, replies);
      match replies(chunks[n]) {
        case None =>
        case Some(coins) => AbsorbKeys(before, coins);
      }
      if id in Collected(chunks, replies) {
        if id in before {
          var k :| SuppliedBy(init, replies, k, id);
          assert SuppliedBy(chunks, replies, k, id);
        } else {
          assert SuppliedBy(chunks, replies, n, id);
        }
      } else {
        forall k | 0 <= k < |chunks| ensures !SuppliedBy(chunks, replies, k, id) {
          if k < n { assert !SuppliedBy(init, replies, k, id); }
        }
      }
    }
  }

  function Requests(trace: seq<Step>): seq<seq<string>> {
    if trace == [] then []
    else (if trace[0].Request? then [trace[0].ids] else []) + Requests(trace[1..])
  }

  function PauseCount(trace: seq<Step>): nat {
    if trace == [] then 0 else (if trace[0].Pause? then 1 else 0) + PauseCount(trace[1..])
  }

  /** The requests of the loop are exactly the chunks, one each, in order. */
  lemma {:induction false} TranscriptRequests(chunks: seq<seq<string>>, replies: Replies)
    ensures Requests(Transcript(chunks, replies)) == chunks
    decreases |chunks|
  {
    if chunks != [] {
      TranscriptRequests(chunks[1..], replies);
      var p: seq<Step> := if replies(chunks[0]).Some? && |chunks| > 1 then [Pause] else [];
      RequestsAppend([Request(chunks[0])], p + Transcript(chunks[1..], replies));
      RequestsAppend(p, Transcript(chunks[1..], replies));
      assert [Request(chunks[0])] + p + Transcript(chunks[1..], replies)
          == [Request(chunks[0])] + (p + Transcript(chunks[1..], replies));
    }
  }

  lemma {:induction false} RequestsAppend(a: seq<Step>, b: seq<Step>)
    ensures Requests(a + b) == Requests(a) + Requests(b)
    decreases |a|
  {
    if a != [] {
      RequestsAppend(a[1..], b);
      assert (a + b)[0] == a[0];
      assert (a + b)[1..] == a[1..] + b;
      var h: seq<seq<string>> := if a[0].Request? then [a[0].ids] else [];
      calc {
        Requests(a + b);
        h + Requests(a[1..] + b);
        h + (Requests(a[1..]) + Requests(b));
        (h + Requests(a[1..])) + Requests(b);
        Requests(a) + Requests(b);
      }
    } else {
      assert a + b == b;
    }
  }

  /** A pause always follows a request whose reply arrived, and the transcript never ends with a pause. */
  lemma {:induction false} PausesFollowSuccess(chunks: seq<seq<string>>, replies: Replies, i: nat)
    requires i < |Transcript(chunks, replies)| && Transcript(chunks, replies)[i] == Pause
    ensures 0 < i < |Transcript(chunks, replies)| - 1
    ensures Transcript(chunks, replies)[i - 1].Request?
    ensures replies(Transcript(chunks, replies)[i - 1].ids).Some?
    decreases |chunks|
  {
    var t := Transcript(chunks, replies);
    var p: seq<Step> := if replies(chunks[0]).Some? && |chunks| > 1 then [Pause] else [];
    var tail := Transcript(chunks[1..], replies);
    assert t == [Request(chunks[0])] + p + tail;
    if i >= 1 + |p| {
      PausesFollowSuccess(chunks[1..], replies, i - 1 - |p|);
      assert t[i - 1] == tail[i - 2 - |p|] || i - 1 - |p| == 0;
      if i - 1 - |p| == 0 {
        assert false;
      }
    } else {
      assert i == 1 && |p| == 1;
      assert tail != [] by { assert chunks[1..] != []; }
    }
  }

  /** When every request succeeds, n chunks give n - 1 pauses. */
  lemma {:induction false} AllAnsweredPauses(chunks: seq<seq<string>>, replies: Replies)
    requires chunks != []
    requires forall k :: 0 <= k < |chunks| ==> replies(chunks[k]).Some?
    ensures PauseCount(Transcript(chunks, replies)) == |chunks| - 1
    decreases |chunks|
  {
    var tail := Transcript(chunks[1..], replies);
    if |chunks| > 1 {
      AllAnsweredPauses(chunks[1..], replies);
      PauseCountAppend([Request(chunks[0]), Pause], tail);
      assert Transcript(chunks, replies) == [Request(chunks[0]), Pause] + tail;
    } else {
      assert Transcript(chunks, replies) == [Request(chunks[0])];
    }
  }

  lemma {:induction false} PauseCountAppend(a: seq<Step>, b: seq<Step>)
    ensures PauseCount(a + b) == PauseCount(a) + PauseCount(b)
    decreases |a|
  {
    if a != [] {
      PauseCountAppend(a[1..], b);
      assert (a + b)[0] == a[0];
      assert (a + b)[1..] == a[1..] + b;
    } else {
      assert a + b == b;
    }
  }

  /** 120 ids are requested in ceil(120/50) = 3 requests, with two pauses when all succeed. */
  lemma HundredTwentyIds(ids: seq<string>, replies: Replies)
    requires |ids| == 120
    requires forall c :: replies(c).Some?
    ensures |Chunks(ids)| == 3
    ensures PauseCount(Transcript(Chunks(ids), replies)) == 2
  {
    ChunksPartition(ids);
    AllAnsweredPauses(Chunks(ids), replies);
  }

  /** Whether the batch for `ids` is already cached (a cached map is always truthy). */
  predicate BatchCached(entries: map<string, CacheValue>, ids: seq<string>) {
    Lookup(entries, BatchKey(ids)).Some?
  }

  /** The map `fetchCoinGeckoDetails` returns: the cached one, else what the requests collect. */
  function BatchLogos(entries: map<string, CacheValue>, ids: seq<string>, replies: Replies): map<string, string>
    requires WellTyped(entries)
  {
    if BatchCached(entries, ids) then entries[BatchKey(ids)].logos
    else Collected(Chunks(ids), replies)
  }

  /** The cache after `fetchCoinGeckoDetails`: the returned map is stored under the batch key. */
  function BatchEntries(entries: map<string, CacheValue>, ids: seq<string>, replies: Replies): map<string, CacheValue>
    requires WellTyped(entries)
  {
    if BatchCached(entries, ids) then entries
    else entries[BatchKey(ids) := LogoBatch(BatchLogos(entries, ids, replies))]
  }

  /** A second lookup of the same ids is served from the cache, with the same map and no request. */
  lemma BatchLookupCached(entries: map<string, CacheValue>, ids: seq<string>, replies: Replies, later: Replies)
    requires WellTyped(entries)
    ensures WellTyped(BatchEntries(entries, ids, replies))
    ensures BatchCached(BatchEntries(entries, ids, replies), ids)
    ensures BatchLogos(BatchEntries(entries, ids, replies), ids, later) == BatchLogos(entries, ids, replies)
  {
  }

  /** One iteration of the chunk loop keeps the loop's account of the chunks done and left. */
  lemma ChunkLoopStep(ids: seq<string>, i: nat, done: seq<seq<string>>)
    requires i < |ids|
    requires done + Chunks(Rest(ids, i)) == Chunks(ids)
    ensures (done + [ids[i..Min(i + ChunkSize, |ids|)]]) + Chunks(Rest(ids, i + ChunkSize)) == Chunks(ids)
  {
    var chunk := ids[i..Min(i + ChunkSize, |ids|)];
    var later := Chunks(Rest(ids, i + ChunkSize));
    ChunksStep(ids, i);
    assert (done + [chunk]) + later == done + ([chunk] + later);
  }

  /** One iteration of the chunk loop keeps the loop's account of the steps taken and to come. */
  lemma TraceLoopStep(ids: seq<string>, i: nat, trace: seq<Step>, replies: Replies)
    requires i < |ids|
    requires trace + Transcript(Chunks(Rest(ids, i)), replies) == Transcript(Chunks(ids), replies)
    ensures var chunk := ids[i..Min(i + ChunkSize, |ids|)];
            var pause: seq<Step> := if replies(chunk).Some? && i + ChunkSize < |ids| then [Pause] else [];
            (trace + [Request(chunk)] + pause) + Transcript(Chunks(Rest(ids, i + ChunkSize)), replies)
              == Transcript(Chunks(ids), replies)
  {
    var chunk := ids[i..Min(i + ChunkSize, |ids|)];
    var later := Chunks(Rest(ids, i + ChunkSize));
    var pause: seq<Step> := if replies(chunk).Some? && i + ChunkSize < |ids| then [Pause] else [];
    var tail := Transcript(later, replies);
    assert Chunks(Rest(ids, i)) == [chunk] + later && (later == [] <==> i + ChunkSize >= |ids|) by {
      ChunksStep(ids, i);
    }
    assert Transcript([chunk] + later, replies) == [Request(chunk)] + pause + tail by {
      TranscriptStep(chunk, later, replies);
    }
    assert (trace + [Request(chunk)] + pause) + tail == trace + ([Request(chunk)] + pause + tail);
  }

  lemma CollectedStep(done: seq<seq<string>>, chunk: seq<string>, replies: Replies)
    ensures Collected(done + [chunk], replies)
         == match replies(chunk) case None => Collected(done, replies) case Some(coins) => Absorb(Collected(done, replies), coins)
  {
    assert (done + [chunk])[..|done|] == done;
  }

  lemma TranscriptStep(chunk: seq<string>, later: seq<seq<string>>, replies: Replies)
    ensures Transcript([chunk] + later, replies)
         == [Request(chunk)] + (if replies(chunk).Some? && later != [] then [Pause] else []) + Transcript(later, replies)
  {
    assert ([chunk] + later)[1..] == later;
  }

  /** The `forEach` over one reply: each coin's image is stored under its id, in reply order. */
  method AbsorbReply(logos: map<string, string>, coins: seq<CoinImage>) returns (merged: map<string, string>)
    ensures merged == Absorb(logos, coins)
  {
    merged := logos;
    var j := 0;
    while j < |coins|
      invariant 0 <= j <= |coins|
      invariant merged == Absorb(logos, coins[..j])
    {
      assert coins[..j + 1][..j] == coins[..j];
      merged := merged[coins[j].id := coins[j].image];
      j := j + 1;
    }
    assert coins[..|coins|] == coins;
  }

  /**
   * The chunk loop of `fetchCoinGeckoDetails`: one request per chunk of 50 ids,
   * merging each answered reply and pausing after every answered chunk but the last.
   */
  method RequestChunks(ids: seq<string>, replies: Replies) returns (logos: map<string, string>, trace: seq<Step>)
    ensures logos == Collected(Chunks(ids), replies)
    ensures trace == Transcript(Chunks(ids), replies)
  {
    logos := map[];
    trace := [];
    ghost var done: seq<seq<string>> := [];
    var i := 0;
    while i < |ids|
      invariant done + Chunks(Rest(ids, i)) == Chunks(ids)
      invariant logos == Collected(done, replies)
      invariant trace + Transcript(Chunks(Rest(ids, i)), replies) == Transcript(Chunks(ids), replies)
      decreases |ids| - i
    {
      var chunk := ids[i..Min(i + ChunkSize, |ids|)];
      var reply := replies(chunk);
      ChunkLoopStep(ids, i, done);
      TraceLoopStep(ids, i, trace, replies);
      CollectedStep(done, chunk, replies);
      if reply.Some? {
        logos := AbsorbReply(logos, reply.value);
      }
      var pause: seq<Step> := if reply.Some? && i + ChunkSize < |ids| then [Pause] else [];
      trace := trace + [Request(chunk)] + pause;
      done := done + [chunk];
      i := i + ChunkSize;
    }
    assert Rest(ids, i) == [];
    assert done == Chunks(ids);
  }

  /** `fetchCoinGeckoDetails(ids)`: served from the cache when it can be; never fails. */
  method FetchLogoBatch(cache: Cache, ids: seq<string>, replies: Replies)
    returns (logos: map<string, string>, trace: seq<Step>)
    requires cache.Valid()
    modifies cache
    ensures cache.Valid()
    ensures logos == BatchLogos(old(cache.entries), ids, replies)
    ensures cache.entries == BatchEntries(old(cache.entries), ids, replies)
    ensures trace == if BatchCached(old(cache.entries), ids) then [] else Transcript(Chunks(ids), replies)
  {
    var key := BatchKey(ids);
    var cached := cache.Get(key);
    if cached.Some? {
      return cached.value.logos, [];
    }
    logos, trace := RequestChunks(ids, replies);
    cache.Put(key, LogoBatch(logos));
  }

  /**
   * `mapToCoinGeckoId`'s table: the CoinGecko id of the 20 symbols whose id
   * is not their lower-case form, `None` for every other symbol.
   */
  function ListedId(symbol: string): Option<string> {
    if symbol == "BTC" then Some("bitcoin")
    else if symbol == "ETH" then Some("ethereum")
    else if symbol == "BNB" then Some("binancecoin")
    else if symbol == "ADA" then Some("cardano")
    else if symbol == "XRP" then Some("ripple")
    else if symbol == "DOGE" then Some("dogecoin")
    else if symbol == "DOT" then Some("polkadot")
    else if symbol == "UNI" then Some("uniswap")
    else if symbol == "BCH" then Some("bitcoin-cash")
    else if symbol == "LTC" then Some("litecoin")
    else if symbol == "LINK" then Some("chainlink")
    else if symbol == "MATIC" then Some("matic-network")
    else if symbol == "XLM" then Some("stellar")
    else if symbol == "ETC" then Some("ethereum-classic")
    else if symbol == "ALGO" then Some("algorand")
    else if symbol == "TRX" then Some("tron")
    else if symbol == "FIL" then Some("filecoin")
    else if symbol == "XTZ" then Some("tezos")
    else if symbol == "ATOM" then Some("cosmos")
    else if symbol == "AAVE" then Some("aave")
    else None
  }

  /** `mapToCoinGeckoId`: the listed id, or else the symbol in lower case. */
  function CoinGeckoId(symbol: string): string {
    match ListedId(symbol)
    case Some(id) => id
    case None => ToLower(symbol)
  }

  /**
   * An unlisted symbol gets its lower-case form, which has no upper-case
   * letter; a listed symbol gets its listed id, which is never empty, so the
   * `||` fallback of the source is reached exactly for unlisted symbols.
   */
  lemma CoinGeckoIdSpec(symbol: string)
    ensures ListedId(symbol).None? ==> CoinGeckoId(symbol) == ToLower(symbol) && NoUpper(CoinGeckoId(symbol))
    ensures ListedId(symbol).Some? ==> CoinGeckoId(symbol) == ListedId(symbol).value != "" && symbol != ""
  {
    ToLowerNormalises(symbol);
  }

  /** A listed symbol gets its table id, hyphenated ids included; an unlisted one is lower-cased. */
  lemma CoinGeckoIdExamples()
    ensures CoinGeckoId("BTC") == "bitcoin"
    ensures CoinGeckoId("MATIC") == "matic-network"
    ensures CoinGeckoId("SOL") == "sol"
  {
  }
}
