/** Reading a result in chunks. */
module SqlChunks {
  import opened Basics
  import opened Sql
  import opened SqlBuilder

  /** A database answers a printed query with rows; it does not change meanwhile. */
  type Database<Row> = (seq<Token>, seq<Value>) -> seq<Row>

  /** A callback decides from everything delivered so far whether to go on. */
  type Callback<!Row> = seq<seq<Row>> -> bool

  datatype ChunkProblem = BadSize | Invalid(problem: Problem)

  /** At most limit rows, after the first offset ones. */
  function Page<Row>(rows: seq<Row>, limit: nat, offset: nat): (page: seq<Row>)
    ensures |page| <= limit && (page == [] <==> limit == 0 || offset >= |rows|)
  {
    var start := if offset < |rows| then offset else |rows|;
    rows[start..if start + limit < |rows| then start + limit else |rows|]
  }

  function Answer<Row>(db: Database<Row>, s: Select): seq<Row> {
    db(Tokens(Single(s)), Params(Single(s)))
  }

  /** LIMIT and OFFSET cut pages from the rows that the query has without them. */
  ghost predicate Pages<Row>(db: Database<Row>, s: Select, rows: seq<Row>) {
    forall limit: nat, offset: nat | limit >= 1 ::
      Answer(db, s.(limit := limit, offset := offset)) == Page(rows, limit, offset)
  }

  function Flatten<Row>(chunks: seq<seq<Row>>): seq<Row> {
    if chunks == [] then [] else Flatten(chunks[..|chunks| - 1]) + chunks[|chunks| - 1]
  }

  lemma NextOffset(k: nat, size: nat)
    ensures (k + 1) * size == k * size + size
  {
  }

  /** Chunk number k is page k + 1. */
  lemma ChunkIsPage(s: Select, k: nat, size: nat)
    requires size >= 1
    ensures Paged(s, k + 1, size) == s.(limit := size, offset := k * size)
  {
    if k == 0 {
      assert k * size == 0;
    }
  }

  /** The pages of a size follow one another without gap, from the first row on; a size below one
      means fifteen rows. */
  lemma PagesAdjoin(s: Select, page: int, perPage: int)
    ensures Paged(s, page, perPage).limit == if perPage >= 1 then perPage else 15
    ensures page <= 1 ==> Paged(s, page, perPage).offset == 0
    ensures page >= 1 ==>
              Paged(s, page + 1, perPage).offset == Paged(s, page, perPage).offset + Paged(s, page, perPage).limit
    ensures Paged(s, page, perPage)
            == s.(limit := Paged(s, page, perPage).limit, offset := Paged(s, page, perPage).offset)
  {
    var size := if perPage >= 1 then perPage else 15;
    assert page * size == (page - 1) * size + size;
  }

  method Get<Row>(qb: QueryBuilder, ghost n: nat, db: Database<Row>) returns (rows: seq<Row>, problem: Option<Problem>)
    requires qb.Chain(n)
    ensures match qb.Snapshot(n)
            case Ok(q) => problem == None && rows == db(Tokens(q), Params(q))
            case Err(p) => problem == Some(p) && rows == []
  {
    var sql, params, failed := qb.ToSQL(n);
    rows, problem := [], failed;
    if failed.None? {
      rows := db(sql, params);
    }
  }

  /** One turn of the loop: look whether there are rows, and if so run the query again. */
  method NextChunk<Row(==)>(qb: QueryBuilder, size: nat, offset: nat, db: Database<Row>)
    returns (rows: seq<Row>, problem: Option<Problem>)
    requires qb.Valid()
    ensures if qb.table == "" then problem == Some(NoTable) && rows == []
            else problem == None && rows == Answer(db, qb.Head().(limit := size, offset := offset))
  {
    var chunkQB := new QueryBuilder.ForChunk(qb, size, offset);
    rows, problem := Get(chunkQB, 0, db);
    if rows != [] {
      rows, problem := Get(chunkQB, 0, db);
    }
  }

  /** What has been delivered: the first pages in order, each but the last let go on. */
  ghost predicate Prefix<Row>(rows: seq<Row>, size: nat, fn: Callback<Row>, chunks: seq<seq<Row>>) {
    && (forall k | 0 <= k < |chunks| :: chunks[k] == Page(rows, size, k * size) && chunks[k] != [])
    && (forall k | 0 < k < |chunks| :: fn(chunks[..k]))
  }

  /** All of it: the rows ran out, or the callback said stop at the last chunk. */
  ghost predicate Delivered<Row>(rows: seq<Row>, size: nat, fn: Callback<Row>, chunks: seq<seq<Row>>) {
    Prefix(rows, size, fn, chunks) && (|chunks| * size >= |rows| || (chunks != [] && !fn(chunks)))
  }

  method Chunk<Row(==)>(qb: QueryBuilder, size: int, db: Database<Row>, fn: Callback<Row>, ghost rows: seq<Row>)
    returns (delivered: seq<seq<Row>>, problem: Option<ChunkProblem>)
    requires qb.Valid() && Pages(db, qb.Head(), rows)
    ensures if size <= 0 then problem == Some(BadSize) && delivered == []
            else if qb.table == "" then problem == Some(Invalid(NoTable)) && delivered == []
            else problem == None && Delivered(rows, size, fn, delivered)
  {
    delivered, problem := [], None;
    if size <= 0 {
      problem := Some(BadSize);
      return;
    }
    var offset := 0;
    while true
      invariant offset == |delivered| * size && problem == None
      invariant delivered == [] || offset < |rows| + size
      invariant qb.table == "" ==> delivered == []
      invariant Prefix(rows, size, fn, delivered) && (delivered != [] ==> fn(delivered))
      decreases |rows| + size - offset
    {
      var found, failed := NextChunk(qb, size, offset, db);
      if failed.Some? {
        problem := Some(Invalid(failed.value));
        return;
      }
      assert found == Page(rows, size, offset);
      if found == [] {
        break;
      }
      ghost var before := delivered;
      delivered := delivered + [found];
      Extended(rows, size, fn, before, found);
      if !fn(delivered) {
        break;
      }
      NextOffset(|before|, size);
      offset := offset + size;
    }
  }

  lemma Extended<Row>(rows: seq<Row>, size: nat, fn: Callback<Row>, chunks: seq<seq<Row>>, next: seq<Row>)
    requires Prefix(rows, size, fn, chunks) && (chunks != [] ==> fn(chunks))
    requires next == Page(rows, size, |chunks| * size) && next != []
    ensures Prefix(rows, size, fn, chunks + [next])
  {
    var all := chunks + [next];
    forall k | 0 < k < |all| ensures fn(all[..k]) {
      if k == |chunks| {
        assert all[..k] == chunks;
      } else {
        assert all[..k] == chunks[..k];
      }
    }
  }

  // ---------- Nothing is lost, repeated or reordered ----------

  lemma {:induction false} FlattenPrefix<Row>(rows: seq<Row>, size: nat, fn: Callback<Row>, chunks: seq<seq<Row>>)
    requires size >= 1 && Prefix(rows, size, fn, chunks)
    ensures chunks != [] ==> (|chunks| - 1) * size < |rows|
    ensures Flatten(chunks) == rows[..if |chunks| * size < |rows| then |chunks| * size else |rows|]
  {
    if chunks == [] {
      assert |chunks| * size == 0;
    } else {
      var k := |chunks| - 1;
      var front := chunks[..k];
      PrefixFront(rows, size, fn, chunks);
      FlattenPrefix(rows, size, fn, front);
      assert chunks[k] == Page(rows, size, k * size) && chunks[k] != [];
      NextOffset(k, size);
      PageJoins(rows, size, k * size);
    }
  }

  lemma PageJoins<Row>(rows: seq<Row>, size: nat, at: nat)
    requires at < |rows|
    ensures rows[..at] + Page(rows, size, at) == rows[..if at + size < |rows| then at + size else |rows|]
  {
  }

  lemma PrefixFront<Row>(rows: seq<Row>, size: nat, fn: Callback<Row>, chunks: seq<seq<Row>>)
    requires Prefix(rows, size, fn, chunks) && chunks != []
    ensures Prefix(rows, size, fn, chunks[..|chunks| - 1])
  {
    var front := chunks[..|chunks| - 1];
    forall k | 0 < k < |front| ensures fn(front[..k]) {
      assert front[..k] == chunks[..k];
    }
  }

  /** How many chunks of the given size n rows need. */
  function ChunkCount(n: nat, size: nat): nat
    requires size >= 1
  {
    if n == 0 then 0 else if n <= size then 1 else 1 + ChunkCount(n - size, size)
  }

  lemma AtLeast(k: nat, size: nat)
    requires k > 1
    ensures (k - 1) * size >= size
  {
  }

  lemma {:induction false} ChunkCountBounds(n: nat, size: nat, k: nat)
    requires size >= 1 && (k > 0 ==> (k - 1) * size < n)
    ensures k <= ChunkCount(n, size)
    ensures k * size >= n <==> k == ChunkCount(n, size)
    decreases k
  {
    if k == 0 {
      assert k * size == 0;
    } else if n > size {
      NextOffset(k - 1, size);
      if k > 1 {
        NextOffset(k - 2, size);
        ChunkCountBounds(n - size, size, k - 1);
      } else {
        assert k * size == size;
      }
    } else {
      if k > 1 {
        AtLeast(k, size);
        assert false;
      }
      assert k * size == size;
    }
  }

  /** Chunk hands over every row exactly once, in order, in as few calls as the size
      allows, unless the callback stops it; then it handed over exactly a prefix. Each
      chunk is what Paginate with the next page number would fetch. */
  lemma ChunksPartition<Row>(s: Select, db: Database<Row>, rows: seq<Row>, size: nat, fn: Callback<Row>,
                             chunks: seq<seq<Row>>)
    requires size >= 1 && Pages(db, s, rows) && Delivered(rows, size, fn, chunks)
    ensures Flatten(chunks) == rows[..if |chunks| * size < |rows| then |chunks| * size else |rows|]
    ensures forall k | 0 <= k < |chunks| :: chunks[k] == Answer(db, Paged(s, k + 1, size))
    ensures |chunks| <= ChunkCount(|rows|, size)
    ensures |chunks| == ChunkCount(|rows|, size) <==> Flatten(chunks) == rows
    ensures |chunks| < ChunkCount(|rows|, size) ==> chunks != [] && !fn(chunks)
    ensures (forall seen :: fn(seen)) ==> |chunks| == ChunkCount(|rows|, size)
  {
    FlattenPrefix(rows, size, fn, chunks);
    ChunkCountBounds(|rows|, size, |chunks|);
    forall k | 0 <= k < |chunks| ensures chunks[k] == Answer(db, Paged(s, k + 1, size)) {
      ChunkIsPage(s, k, size);
    }
  }
}
