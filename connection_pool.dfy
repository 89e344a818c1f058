/**
  The module-level connection pool of the server: one nullable slot,
  filled by `get_pool` on first use and emptied by `close_pool`.  Creating
  and closing the real asyncpg pool is abstracted to a `Pool` object that
  records its settings and whether it has been closed.
*/
module ConnectionPool {

  /** The connection settings `_get_db_config` produces. */
  datatype DbConfig = DbConfig(host: string, port: int, user: string, password: string, database: string)

  /** A pool as `asyncpg.create_pool` returns it, with its settings. */
  class Pool {
    const config: DbConfig
    const minSize: nat
    const maxSize: nat
    var closed: bool

    constructor (config: DbConfig, minSize: nat, maxSize: nat)
      ensures this.config == config && this.minSize == minSize && this.maxSize == maxSize
      ensures !closed
    {
      this.config := config;
      this.minSize := minSize;
      this.maxSize := maxSize;
      closed := false;
    }

    /** `pool.close()`. */
    method Close()
      modifies this
      ensures closed
    {
      closed := true;
    }
  }

  /** The global `_pool` slot, with a count of the pools created through it. */
  class PoolHolder {
    var pool: Pool?
    ghost var created: nat

    /** The pool held in the slot is never a closed one. */
    ghost predicate Valid()
      reads this, pool
    {
      pool != null ==> !pool.closed
    }

    /** At import time the slot is empty. */
    constructor ()
      ensures pool == null && created == 0
      ensures Valid()
    {
      pool := null;
      created := 0;
    }

    /**
      `get_pool(cfg)`: an existing pool is returned as it is and nothing is
      created; an empty slot gets exactly one new open pool for `cfg` with
      between 1 and 5 connections, which is stored and returned.
    */
    method GetPool(cfg: DbConfig) returns (p: Pool)
      requires Valid()
      modifies this
      ensures Valid()
      ensures p == pool && !p.closed
      ensures old(pool) != null ==> p == old(pool) && created == old(created)
      ensures old(pool) == null ==> fresh(p) && created == old(created) + 1
      ensures old(pool) == null ==> p.config == cfg && p.minSize == 1 && p.maxSize == 5
    {
      if pool == null {
        pool := new Pool(cfg, 1, 5);
        created := created + 1;
      }
      p := pool;
    }

    /**
      `close_pool()`: a held pool is closed and the slot emptied; an empty
      slot is left as it is.  No pool is created either way.
    */
    method ClosePool()
      requires Valid()
      modifies this, pool
      ensures pool == null && Valid()
      ensures created == old(created)
      ensures old(pool) != null ==> old(pool).closed
      ensures old(pool) == null ==> unchanged(this)
    {
      if pool != null {
        pool.Close();
        pool := null;
      }
    }
  }
}
