/** One process's connection to the token database (openTokenStore in src/client/auth/tokenStore.ts). */
module TokenStores {
  import opened Common
  import opened TokenDisk

  const DEFAULT_BUSY_TIMEOUT_MS := 5000

  class TokenStore {
    const me: Pid
    /** What the database file holds. Other processes write it between this one's calls. */
    var disk: Disk
    /** How long a statement waits for another connection's lock, in milliseconds. */
    var busyTimeout: int

    constructor (me: Pid, disk: Disk)
      ensures this.me == me && this.disk == disk && busyTimeout == DEFAULT_BUSY_TIMEOUT_MS
    {
      this.me, this.disk, busyTimeout := me, disk, DEFAULT_BUSY_TIMEOUT_MS;
    }

    method Get(origin: string) returns (row: Option<Row>)
      ensures row.Some? <==> origin in Visible(disk, me)
      ensures row.Some? ==> row.value == Visible(disk, me)[origin]
    {
      row := Lookup(Visible(disk, me), origin);
    }

    /** An upsert; `busy` when another connection still holds the lock after busyTimeout. */
    method Save(origin: string, row: Row) returns (busy: bool)
      modifies this`disk
      ensures busy <==> Busy(old(disk), me)
      ensures if busy then disk == old(disk)
              else disk == Write(old(disk), me, Visible(old(disk), me)[origin := row]) && Visible(disk, me)[origin] == row
    {
      busy := Busy(disk, me);
      if !busy {
        disk := Write(disk, me, Visible(disk, me)[origin := row]);
      }
    }

    method Delete(origin: string) returns (busy: bool)
      modifies this`disk
      ensures busy <==> Busy(old(disk), me)
      ensures if busy then disk == old(disk)
              else disk == Write(old(disk), me, Visible(old(disk), me) - {origin}) && origin !in Visible(disk, me)
    {
      busy := Busy(disk, me);
      if !busy {
        disk := Write(disk, me, Visible(disk, me) - {origin});
      }
    }

    /** withExclusiveLock before BEGIN IMMEDIATE: a caller's own timeout bounds the wait for the lock. */
    method BoundWait(timeoutMs: Option<int>) returns (lockBudgetMs: int)
      modifies this`busyTimeout
      ensures lockBudgetMs == if timeoutMs.Some? then Max(0, timeoutMs.value) else 5000
      ensures busyTimeout == if timeoutMs.Some? then lockBudgetMs else old(busyTimeout)
    {
      lockBudgetMs := if timeoutMs.Some? then Max(0, timeoutMs.value) else DEFAULT_BUSY_TIMEOUT_MS;
      if timeoutMs.Some? {
        busyTimeout := lockBudgetMs;
      }
    }

    /** After it, whether or not the lock was acquired. */
    method RestoreWait(timeoutMs: Option<int>)
      modifies this`busyTimeout
      ensures busyTimeout == if timeoutMs.Some? then 5000 else old(busyTimeout)
    {
      if timeoutMs.Some? {
        busyTimeout := DEFAULT_BUSY_TIMEOUT_MS;
      }
    }

    /** BEGIN IMMEDIATE, each time it looks whether the lock is free. */
    method TryBegin() returns (locked: bool)
      modifies this`disk
      ensures locked <==> old(disk.writer).None?
      ensures disk == if locked then Begin(old(disk), me) else old(disk)
    {
      locked := disk.writer.None?;
      if locked {
        disk := Begin(disk, me);
      }
    }

    /** COMMIT when fn returned and the commit succeeds, else ROLLBACK. */
    method EndTransaction(commit: bool)
      requires disk.writer == Some(me)
      modifies this`disk
      ensures disk.writer.None? && disk.rows == if commit then old(disk.draft) else old(disk.rows)
      ensures disk == End(old(disk), commit)
    {
      disk := End(disk, commit);
    }
  }

  /** A transaction is all or nothing, and until it commits no one else sees it. */
  lemma TransactionIsAtomic(d: Disk, p: Pid, q: Pid, rows: map<string, Row>)
    requires d.writer.None? && p != q
    ensures var inside := Write(Begin(d, p), p, rows);
            && Visible(inside, p) == rows && Visible(inside, q) == d.rows
            && Busy(inside, q) && !Busy(inside, p)
            && (forall r :: Visible(End(inside, true), r) == rows && Visible(End(inside, false), r) == d.rows)
            && End(inside, true) == Write(d.(draft := rows), p, rows)
  {
  }
}
