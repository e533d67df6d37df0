/**
 * The product-matching facade (`cfepm/facade.py`): the partitioning helper `chunks`, the
 * NaN filter applied to outgoing values, and the request path of `get_top_matches`, which
 * pairs an incoming item with every product and hands the pairs to the pipeline.
 */
module Facade {
  import opened Common
  import opened PyValues
  import opened ItemModel

  const ItemTitleKey := "Title"
  const ItemSpecsKey := "ItemSpecifics"

  // ---------------------------------------------------------------------------------------
  // chunks

  /**
   * The chunk length `chunks` computes: the quotient truncated toward zero (for the
   * non-negative length, the same as Dafny's quotient), plus one when it falls short.
   */
  function ChunkLength(len: nat, chunkNum: int): (n: int)
    requires chunkNum != 0
  {
    var q := len / chunkNum;
    if q * chunkNum < len then q + 1 else q
  }

  /** For a positive `chunk_num`, the chunk length is the least `n` with `n * chunk_num >= len`. */
  lemma ChunkLengthBounds(len: nat, chunkNum: int)
    requires chunkNum > 0
    ensures var n := ChunkLength(len, chunkNum);
      n >= 0 && n * chunkNum >= len && (n - 1) * chunkNum < len && (len > 0 ==> n >= 1)
  {
    var q := len / chunkNum;
    var n := ChunkLength(len, chunkNum);
    assert len == q * chunkNum + len % chunkNum;
    assert q * chunkNum + chunkNum > len;
    assert n * chunkNum == if q * chunkNum < len then q * chunkNum + chunkNum else q * chunkNum;
    assert (n - 1) * chunkNum == n * chunkNum - chunkNum;
  }

  /** `l[i:i + n]` for `i` in `range(0, len(l), n)`, for a positive step `n`. */
  function Chunked<T>(l: seq<T>, n: int): (r: seq<seq<T>>)
    requires n >= 1
    decreases |l|
  {
    if l == [] then []
    else if |l| <= n then [l]
    else [l[..n]] + Chunked(l[n..], n)
  }

  /**
   * `list(chunks(l, chunk_num))`. A zero `chunk_num` fails the division; a zero chunk length
   * (an empty list, among others) is a zero `range` step, a ValueError; a negative one is an
   * empty range.
   */
  function Chunks<T>(l: seq<T>, chunkNum: int): (r: Result<seq<seq<T>>>)
  {
    if chunkNum == 0 then Err("ZeroDivisionError")
    else
      var n := ChunkLength(|l|, chunkNum);
      if n == 0 then Err("ValueError")
      else if n < 0 then Ok([])
      else Ok(Chunked(l, n))
  }

  /** The concatenation of a sequence of sequences. */
  function Flatten<T>(chunks: seq<seq<T>>): (r: seq<T>)
    decreases |chunks|
  {
    if chunks == [] then [] else chunks[0] + Flatten(chunks[1..])
  }

  /** The chunks put back together are the list. */
  lemma {:induction false} ChunkedFlatten<T>(l: seq<T>, n: int)
    requires n >= 1
    ensures Flatten(Chunked(l, n)) == l
    decreases |l|
  {
    if l != [] && |l| > n {
      ChunkedFlatten(l[n..], n);
      assert Chunked(l, n)[1..] == Chunked(l[n..], n);
      assert l == l[..n] + l[n..];
    } else if l != [] {
      assert Chunked(l, n)[1..] == [];
    }
  }

  /** Every chunk but the last holds `n` elements; the last holds between one and `n`. */
  lemma {:induction false} ChunkedSizes<T>(l: seq<T>, n: int, i: int)
    requires n >= 1 && 0 <= i < |Chunked(l, n)|
    ensures i < |Chunked(l, n)| - 1 ==> |Chunked(l, n)[i]| == n
    ensures i == |Chunked(l, n)| - 1 ==> 1 <= |Chunked(l, n)[i]| <= n
    decreases |l|
  {
    if |l| > n && i > 0 {
      assert Chunked(l, n)[i] == Chunked(l[n..], n)[i - 1];
      ChunkedSizes(l[n..], n, i - 1);
    }
  }

  /** A list that fits in `k` chunks of `n` is cut into at most `k` chunks. */
  lemma {:induction false} ChunkedCount<T>(l: seq<T>, n: int, k: int)
    requires n >= 1 && k >= 1 && |l| <= n * k
    ensures |Chunked(l, n)| <= k
    decreases |l|
  {
    if |l| > n {
      assert |l[n..]| <= n * (k - 1);
      if k == 1 {
        assert false;
      }
      ChunkedCount(l[n..], n, k - 1);
    }
  }

  /**
   * For a positive `chunk_num`: a non-empty list is cut into at most `chunk_num` chunks that
   * put back together give the list, each but the last of length `ceil(len / chunk_num)`;
   * an empty list is a ValueError.
   */
  lemma ChunksMeaning<T>(l: seq<T>, chunkNum: int)
    requires chunkNum > 0
    ensures l == [] <==> Chunks(l, chunkNum) == Err("ValueError")
    ensures l != [] ==>
      var n := ChunkLength(|l|, chunkNum);
      n == (|l| + chunkNum - 1) / chunkNum &&
      Chunks(l, chunkNum) == Ok(Chunked(l, n)) &&
      Flatten(Chunked(l, n)) == l &&
      1 <= |Chunked(l, n)| <= chunkNum &&
      forall i :: 0 <= i < |Chunked(l, n)| - 1 ==> |Chunked(l, n)[i]| == n
  {
    ChunkLengthBounds(|l|, chunkNum);
    if l != [] {
      var n := ChunkLength(|l|, chunkNum);
      CeilingUnique(|l|, chunkNum, n);
      ChunkedFlatten(l, n);
      ChunkedCount(l, n, chunkNum);
      forall i | 0 <= i < |Chunked(l, n)| - 1 ensures |Chunked(l, n)[i]| == n {
        ChunkedSizes(l, n, i);
      }
    }
  }

  /** The one `n` with `n * c >= len > (n - 1) * c` is `ceil(len / c)`. */
  lemma CeilingUnique(len: nat, c: int, n: int)
    requires c > 0 && n * c >= len && (n - 1) * c < len
    ensures n == (len + c - 1) / c
  {
    var m := (len + c - 1) / c;
    assert len + c - 1 == m * c + (len + c - 1) % c;
    assert (m - 1) * c == m * c - c;
    MulLess(n - 1, m, c);
    MulLess(m - 1, n, c);
  }

  /** Multiplying by a positive factor keeps a strict order. */
  lemma MulLess(a: int, b: int, c: int)
    requires c > 0 && a * c < b * c
    ensures a < b
  {
    assert (b - a) * c == b * c - a * c;
  }

  // ---------------------------------------------------------------------------------------
  // _filter_nan

  /** `_filter_nan(v)`: lists pass as they are; None and NaN become None; anything else is kept. */
  function FilterNan(v: PyValue): (r: PyValue)
    ensures v.PyList? ==> r == v
    ensures !v.PyList? && IsNull(v) ==> r == PyNone
    ensures !IsNull(v) ==> r == v
    ensures !r.PyNaN?
  {
    if v.PyList? then v else if IsNull(v) then PyNone else v
  }

  /** Filtering twice is filtering once, and filtering changes exactly a NaN that is not in a list. */
  lemma FilterNanIdempotent(v: PyValue)
    ensures FilterNan(FilterNan(v)) == FilterNan(v)
    ensures FilterNan(v) == v <==> !v.PyNaN?
  {
  }

  // ---------------------------------------------------------------------------------------
  // get_top_matches

  /** The pipeline's `transform` on a batch of (product, item) pairs. */
  type Transform = seq<(Item, Item)> -> PyValue

  class ProductMatchingFacade {
    /** `product_db.products`. */
    const products: seq<Item>
    const transform: Transform
    /** `partition_num`. */
    const partitionNum: int
    /** The batches handed to the pipeline so far. */
    var transformed: seq<seq<(Item, Item)>>

    /**
     * The constructor: an unset, zero or negative `max_workers` falls back to the processor
     * count. Preprocessing the products is not part of this model.
     */
    constructor (products: seq<Item>, transform: Transform, maxWorkers: Option<int>, cpuCount: int)
      ensures this.products == products && this.transform == transform
      ensures partitionNum == if maxWorkers.None? || maxWorkers.value < 1 then cpuCount else maxWorkers.value
      ensures transformed == []
    {
      this.products := products;
      this.transform := transform;
      partitionNum := if maxWorkers.None? || maxWorkers.value < 1 then cpuCount else maxWorkers.value;
      transformed := [];
    }

    /** Every product paired with the item, in product order. */
    function Pairs(item: Item): (r: seq<(Item, Item)>)
      ensures |r| == |products| && forall i :: 0 <= i < |r| ==> r[i] == (products[i], item)
    {
      seq(|products|, i requires 0 <= i < |products| => (products[i], item))
    }

    /**
     * `get_top_matches(item_dict, min_prob, top_n)`: a `top_n` below one answers the empty
     * list and leaves the pipeline alone. Otherwise a missing Title is a KeyError and an
     * ItemSpecifics that is not a dict a ValueError; then every pair goes to the pipeline in
     * one batch, and the pipeline's answer is returned, except that with no products the
     * per-pair timing divides by zero after the pipeline has run.
     */
    method GetTopMatches(itemDict: map<string, PyValue>, minProb: Float, topN: int) returns (r: Result<PyValue>)
      modifies this
      ensures topN < 1 ==> r == Ok(PyList([])) && unchanged(this)
      ensures topN >= 1 && ItemTitleKey !in itemDict ==> r == Err("KeyError") && unchanged(this)
      ensures topN >= 1 && ItemTitleKey in itemDict && !Get(itemDict, ItemSpecsKey).PyDict? ==>
        r == Err("ValueError") && unchanged(this)
      ensures topN >= 1 && ItemTitleKey in itemDict && Get(itemDict, ItemSpecsKey).PyDict? ==>
        exists item: Item ::
          && fresh(item) && item.title == itemDict[ItemTitleKey]
          && PyDict(item.specDict) == Get(itemDict, ItemSpecsKey) && item.description == PyNone
          && transformed == old(transformed) + [Pairs(item)]
          && r == (if products == [] then Err("ZeroDivisionError") else Ok(transform(Pairs(item))))
    {
      if topN < 1 {
        return Ok(PyList([]));
      }
      if ItemTitleKey !in itemDict {
        return Err("KeyError");
      }
      var made := NewItem(itemDict[ItemTitleKey], Get(itemDict, ItemSpecsKey), PyNone);
      if made.Err? {
        return Err(made.error);
      }
      var item := made.value;
      var pairs := Pairs(item);
      var results := transform(pairs);
      transformed := transformed + [pairs];
      if |pairs| == 0 {
        return Err("ZeroDivisionError");
      }
      r := Ok(results);
    }
  }
}
