/** The per-chain checkpoint table of the order indexer
    (`data/postgres/block.go`): the `last_blocks` table holds one block number
    per source chain, seeded with 0 when a chain is first seen, and updated
    in place. The database is a shared table; a `Block` is one chain's view
    of it. */
module PostgresBlock {
  import opened Base

  /** The `last_blocks` table: the `id` column (the block number) by the
      `src_chain` column. A table that is not `healthy` fails every
      statement. */
  class LastBlockTable {
    var rows: map<string, Uint64>
    const healthy: bool

    constructor (rows: map<string, Uint64>, healthy: bool)
      ensures this.rows == rows && this.healthy == healthy
    {
      this.rows := rows;
      this.healthy := healthy;
    }
  }

  /** `block`: the table and the chain whose row it reads and writes. */
  datatype Block = Block(db: LastBlockTable, chain: string)

  /** What `SELECT id FROM last_blocks WHERE src_chain = chain` finds. */
  function Lookup(rows: map<string, Uint64>, chain: string): Option<Uint64> {
    if chain in rows then Some(rows[chain]) else None
  }

  /** The table after `init` on a healthy database: the chain's row with 0
      inserted when it had none. */
  function Seeded(rows: map<string, Uint64>, chain: string): map<string, Uint64> {
    if chain in rows then rows else rows[chain := 0]
  }

  /** The table after `UPDATE last_blocks SET id = n WHERE src_chain =
      chain`: no row is created. */
  function Updated(rows: map<string, Uint64>, chain: string, n: Uint64): map<string, Uint64> {
    if chain in rows then rows[chain := n] else rows
  }

  /** After seeding, the chain has a row; an existing row keeps its value;
      seeding twice is seeding once. */
  lemma SeededProperties(rows: map<string, Uint64>, chain: string)
    ensures Lookup(Seeded(rows, chain), chain).Some?
    ensures chain in rows ==> Seeded(rows, chain) == rows
    ensures chain !in rows ==> Lookup(Seeded(rows, chain), chain) == Some(0)
    ensures Seeded(Seeded(rows, chain), chain) == Seeded(rows, chain)
    ensures forall c :: c != chain ==> Lookup(Seeded(rows, chain), c) == Lookup(rows, c)
  {
  }

  /** Set then Get on a chain that has a row reads back the number set;
      every other chain's row is unchanged; a chain without a row stays
      without one. */
  lemma UpdatedProperties(rows: map<string, Uint64>, chain: string, n: Uint64)
    ensures chain in rows ==> Lookup(Updated(rows, chain, n), chain) == Some(n)
    ensures chain !in rows ==> Updated(rows, chain, n) == rows
    ensures forall c :: c != chain ==> Lookup(Updated(rows, chain, n), c) == Lookup(rows, c)
  {
  }

  /** `Get`: the chain's block number, none when the chain has no row, or
      the database error. */
  method Get(q: Block) returns (r: Result<Option<Uint64>, Error>)
    ensures q.db.healthy ==> r == Ok(Lookup(q.db.rows, q.chain))
    ensures !q.db.healthy ==> r == Err(Db)
  {
    if !q.db.healthy {
      return Err(Db);
    }
    if q.chain in q.db.rows {
      r := Ok(Some(q.db.rows[q.chain]));
    } else {
      r := Ok(None);
    }
  }

  /** `init`: insert a row holding 0 for the chain unless it has one. */
  method Init(q: Block) returns (err: Option<Error>)
    modifies q.db
    ensures q.db.healthy ==> err == None && q.db.rows == Seeded(old(q.db.rows), q.chain)
    ensures !q.db.healthy ==> err == Some(Db) && q.db.rows == old(q.db.rows)
  {
    var b := Get(q);
    if b.Err? {
      return Some(b.error);
    }
    if b.value.Some? {
      return None;
    }
    q.db.rows := q.db.rows[q.chain := 0];
    err := None;
  }

  /** `Set`: an UPDATE of the chain's row. */
  method Set(q: Block, n: Uint64) returns (err: Option<Error>)
    modifies q.db
    ensures q.db.healthy ==> err == None && q.db.rows == Updated(old(q.db.rows), q.chain, n)
    ensures !q.db.healthy ==> err == Some(Db) && q.db.rows == old(q.db.rows)
  {
    if !q.db.healthy {
      return Some(Db);
    }
    if q.chain in q.db.rows {
      q.db.rows := q.db.rows[q.chain := n];
    }
    err := None;
  }

  /** `NewLastBlock`: the chain's view of the table, after `init`; once it
      succeeds the chain has a row and an existing row is kept. */
  method NewLastBlock(db: LastBlockTable, chain: string) returns (r: Result<Block, Error>)
    modifies db
    ensures db.healthy ==> r == Ok(Block(db, chain)) && db.rows == Seeded(old(db.rows), chain)
    ensures !db.healthy ==> r == Err(Db) && db.rows == old(db.rows)
    ensures r.Ok? ==> chain in db.rows
  {
    var q := Block(db, chain);
    var err := Init(q);
    if err.Some? {
      return Err(err.value);
    }
    r := Ok(q);
  }
}
