/**
 * The caching middleware of src/methods.ts: `eth_blockNumber` passes the
 * upstream answer through; `eth_getBlockByNumber` and `eth_getBlockByHash`
 * always forward a tag (`latest`, `earliest`, `pending`) and file the block
 * under its number and its hash, and read any other id through the cache.
 *
 * The upstream call `request()` is an oracle: each operation is handed what
 * the call would resolve to (`Some(v)`) or that it rejects (`None`), and
 * `forwards` counts the calls actually made.
 */
module Middleware {
  import opened Results
  import opened BlockKeys

  /**
   * What the upstream node answers: a block (the `number` and `hash` fields
   * of src/eth.ts), `null` (or `undefined`, which behaves alike here: a
   * missing block), or any other JSON value, written out as its text.
   */
  datatype Value = Block(number: Id, hash: string) | Null | Other(json: string)

  /**
   * `block.number`, which is `undefined` on any other non-null value; on
   * `Null` the property read throws, so the callers exclude it.
   */
  function NumberOf(v: Value): Id {
    if v.Block? then v.number else Absent
  }

  /** `block.hash`, likewise. */
  function HashOf(v: Value): Id {
    if v.Block? then Str(v.hash) else Absent
  }

  /** The two keys `cacheBlock` writes for `b`. */
  function NumberKey(b: Value, full: bool): string {
    BlockKey(NumberOf(b), full)
  }

  function HashKey(b: Value, full: bool): string {
    BlockKey(HashOf(b), full)
  }

  /** The cache after `cacheBlock(cache, b, full)` on a non-null `b`. */
  function Fanout(m: map<string, Value>, b: Value, full: bool): (r: map<string, Value>)
    ensures r.Keys == m.Keys + {NumberKey(b, full), HashKey(b, full)}
  {
    m[NumberKey(b, full) := b][HashKey(b, full) := b]
  }

  /**
   * `cacheBlock` sets exactly the number key and the hash key, both to the
   * block, and leaves every other entry as it was.
   */
  lemma FanoutExact(m: map<string, Value>, b: Value, full: bool, k: string)
    ensures k in Fanout(m, b, full) <==> k in m || k == NumberKey(b, full) || k == HashKey(b, full)
    ensures k == NumberKey(b, full) || k == HashKey(b, full) ==> Fanout(m, b, full)[k] == b
    ensures k != NumberKey(b, full) && k != HashKey(b, full) && k in m ==> Fanout(m, b, full)[k] == m[k]
  {
  }

  /**
   * After a tag request filed `b`, any id that renders like `b.number`, with
   * the same flag, finds `b` in the cache.
   */
  lemma FanoutServesNumber(m: map<string, Value>, b: Value, full: bool, id: Id)
    requires Render(id) == Render(NumberOf(b))
    ensures BlockKey(id, full) in Fanout(m, b, full)
    ensures Fanout(m, b, full)[BlockKey(id, full)] == b
  {
    assert BlockKey(id, full) == NumberKey(b, full);
  }

  /** The same for an id that renders like `b.hash`. */
  lemma FanoutServesHash(m: map<string, Value>, b: Value, full: bool, id: Id)
    requires Render(id) == Render(HashOf(b))
    ensures BlockKey(id, full) in Fanout(m, b, full)
    ensures Fanout(m, b, full)[BlockKey(id, full)] == b
  {
    assert BlockKey(id, full) == HashKey(b, full);
  }

  /**
   * A filed block never lands on the key of the other flag for the same
   * number: a block fetched full is not served to a plain request.
   */
  lemma FanoutKeepsOtherFlag(m: map<string, Value>, n: nat, h: string, full: bool)
    requires h == [] || h[|h| - 1] != '+'
    ensures var b := Block(Num(n), h);
      BlockKey(Num(n), !full) in m ==> Fanout(m, b, full)[BlockKey(Num(n), !full)] == m[BlockKey(Num(n), !full)]
  {
    var b := Block(Num(n), h);
    var k := BlockKey(Num(n), !full);
    NumericKeys(n, !full, n, full);
    var d := Decimal(n);
    assert d[|d| - 1] != '+';
    KeyEquality(Num(n), !full, Str(h), full);
    assert k != NumberKey(b, full) && k != HashKey(b, full);
  }

  /** The proxy's shared state: the block cache and the upstream call count. */
  class Proxy {
    var cache: map<string, Value>
    var forwards: nat

    constructor ()
      ensures cache == map[] && forwards == 0
    {
      cache := map[];
      forwards := 0;
    }

    /** `request()`: one call to the upstream node. */
    method Request(upstream: Option<Value>) returns (r: Option<Value>)
      modifies this`forwards
      ensures forwards == old(forwards) + 1
      ensures r == upstream
    {
      forwards := forwards + 1;
      r := upstream;
    }

    /**
     * `cacheBlock`: files `b` under its number and its hash and returns it.
     * On `null` the read of `block.number` throws before anything is
     * stored; that is `None`.
     */
    method CacheBlock(b: Value, full: bool) returns (r: Option<Value>)
      modifies this`cache
      ensures b == Null ==> r == None && cache == old(cache)
      ensures b != Null ==> r == Some(b) && cache == Fanout(old(cache), b, full)
    {
      if b == Null {
        return None;
      }
      var k1 := BlockKey(NumberOf(b), full);
      var k2 := BlockKey(HashOf(b), full);
      cache := cache[k1 := b];
      cache := cache[k2 := b];
      r := Some(b);
    }

    /**
     * `cache.wrap(key, request)`: a hit returns the entry and calls nothing;
     * a miss calls upstream once and stores what it resolves to. A rejected
     * call stores nothing and rejects too.
     */
    method Wrap(key: string, upstream: Option<Value>) returns (r: Option<Value>)
      modifies this`cache, this`forwards
      ensures key in old(cache) ==>
        r == Some(old(cache)[key]) && cache == old(cache) && forwards == old(forwards)
      ensures key !in old(cache) ==> r == upstream && forwards == old(forwards) + 1
      ensures key !in old(cache) && upstream.Some? ==> cache == old(cache)[key := upstream.value]
      ensures key !in old(cache) && upstream.None? ==> cache == old(cache)
    {
      if key in cache {
        r := Some(cache[key]);
      } else {
        r := Request(upstream);
        if r.Some? {
          cache := cache[key := r.value];
        }
      }
    }

    /** `eth_blockNumber`: the upstream answer, verbatim; the cache is not used. */
    method EthBlockNumber(upstream: Option<Value>) returns (r: Option<Value>)
      modifies this`forwards
      ensures r == upstream
      ensures forwards == old(forwards) + 1
      ensures cache == old(cache)
    {
      r := Request(upstream);
    }

    /**
     * `eth_getBlockByNumber`, with `id` being `params[0]` and `full` the
     * truth of `params[1]`.
     */
    method EthGetBlockByNumber(id: Id, full: bool, upstream: Option<Value>) returns (r: Option<Value>)
      modifies this`cache, this`forwards
      ensures IsTag(id) ==> forwards == old(forwards) + 1
      ensures IsTag(id) && upstream.Some? && upstream.value != Null ==>
        r == upstream && cache == Fanout(old(cache), upstream.value, full)
      ensures IsTag(id) && (upstream.None? || upstream == Some(Null)) ==>
        r == None && cache == old(cache)
      ensures !IsTag(id) && BlockKey(id, full) in old(cache) ==>
        r == Some(old(cache)[BlockKey(id, full)]) && cache == old(cache) && forwards == old(forwards)
      ensures !IsTag(id) && BlockKey(id, full) !in old(cache) ==>
        r == upstream && forwards == old(forwards) + 1
      ensures !IsTag(id) && BlockKey(id, full) !in old(cache) && upstream.Some? ==>
        cache == old(cache)[BlockKey(id, full) := upstream.value]
      ensures !IsTag(id) && BlockKey(id, full) !in old(cache) && upstream.None? ==>
        cache == old(cache)
    {
      if IsTag(id) {
        var block := Request(upstream);
        if block.Some? {
          r := CacheBlock(block.value, full);
        } else {
          r := None;
        }
      } else {
        r := Wrap(BlockKey(id, full), upstream);
      }
    }

    /** `eth_getBlockByHash`: the same steps, keyed by the hash parameter. */
    method EthGetBlockByHash(hash: Id, full: bool, upstream: Option<Value>) returns (r: Option<Value>)
      modifies this`cache, this`forwards
      ensures IsTag(hash) ==> forwards == old(forwards) + 1
      ensures IsTag(hash) && upstream.Some? && upstream.value != Null ==>
        r == upstream && cache == Fanout(old(cache), upstream.value, full)
      ensures IsTag(hash) && (upstream.None? || upstream == Some(Null)) ==>
        r == None && cache == old(cache)
      ensures !IsTag(hash) && BlockKey(hash, full) in old(cache) ==>
        r == Some(old(cache)[BlockKey(hash, full)]) && cache == old(cache) && forwards == old(forwards)
      ensures !IsTag(hash) && BlockKey(hash, full) !in old(cache) ==>
        r == upstream && forwards == old(forwards) + 1
      ensures !IsTag(hash) && BlockKey(hash, full) !in old(cache) && upstream.Some? ==>
        cache == old(cache)[BlockKey(hash, full) := upstream.value]
      ensures !IsTag(hash) && BlockKey(hash, full) !in old(cache) && upstream.None? ==>
        cache == old(cache)
    {
      if IsTag(hash) {
        var block := Request(upstream);
        if block.Some? {
          r := CacheBlock(block.value, full);
        } else {
          r := None;
        }
      } else {
        r := Wrap(BlockKey(hash, full), upstream);
      }
    }

    /**
     * A tag request that returns block `b`, then a request by number for
     * an id rendering like `b.number`: the second is answered from the
     * cache, so upstream is called once in all.
     */
    method TagThenNumber(tag: Id, b: Value, id: Id, full: bool, later: Option<Value>)
      returns (first: Option<Value>, second: Option<Value>)
      requires b != Null && IsTag(tag) && !IsTag(id) && Render(id) == Render(NumberOf(b))
      modifies this`cache, this`forwards
      ensures first == Some(b) && second == Some(b)
      ensures forwards == old(forwards) + 1
    {
      first := EthGetBlockByNumber(tag, full, Some(b));
      FanoutServesNumber(old(cache), b, full, id);
      second := EthGetBlockByNumber(id, full, later);
    }

    /** The same with a request by hash for an id rendering like `b.hash`. */
    method TagThenHash(tag: Id, b: Value, id: Id, full: bool, later: Option<Value>)
      returns (first: Option<Value>, second: Option<Value>)
      requires b != Null && IsTag(tag) && !IsTag(id) && Render(id) == Render(HashOf(b))
      modifies this`cache, this`forwards
      ensures first == Some(b) && second == Some(b)
      ensures forwards == old(forwards) + 1
    {
      first := EthGetBlockByHash(tag, full, Some(b));
      FanoutServesHash(old(cache), b, full, id);
      second := EthGetBlockByHash(id, full, later);
    }
  }

  /**
   * `eth_getBlockByNumber(["latest"])` whose upstream answers `null` (no
   * such block): the call rejects and the cache stays empty.
   */
  method NullTagExample() returns (r: Option<Value>, cache: map<string, Value>, calls: nat)
    ensures r == None && cache == map[] && calls == 1
  {
    var p := new Proxy();
    r := p.EthGetBlockByNumber(Str("latest"), false, Some(Null));
    cache := p.cache;
    calls := p.forwards;
  }

  /** The key a plain request for block 10000 uses. */
  lemma KeyOfTenThousand()
    ensures BlockKey(Num(10000), false) == "block/10000"
  {
    assert Decimal(1) == "1";
    assert Decimal(10) == Decimal(1) + "0";
    assert Decimal(100) == Decimal(10) + "0";
    assert Decimal(1000) == Decimal(100) + "0";
    assert Decimal(10000) == Decimal(1000) + "0";
  }

  /**
   * `eth_getBlockByNumber([10000])` on an empty cache whose upstream answers
   * `{test: 'test'}`: the answer comes back and is filed under `block/10000`
   * alone (the missing `params[1]` is falsy, so no `+`).
   */
  method FirstLookupExample() returns (r: Option<Value>, cache: map<string, Value>, calls: nat)
    ensures r == Some(Other("{\"test\":\"test\"}"))
    ensures cache == map["block/10000" := Other("{\"test\":\"test\"}")]
    ensures calls == 1
  {
    var p := new Proxy();
    KeyOfTenThousand();
    r := p.EthGetBlockByNumber(Num(10000), false, Some(Other("{\"test\":\"test\"}")));
    cache := p.cache;
    calls := p.forwards;
  }
}
