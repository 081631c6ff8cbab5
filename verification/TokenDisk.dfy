/** What the processes share: the token database (src/client/auth/tokenStore.ts), as values. */
module TokenDisk {
  import opened Common

  type Pid = nat

  /** A refresh token: its rotation family, and which of the family's tokens it is. */
  datatype RefreshToken = RefreshToken(family: nat, generation: nat)

  /** The cached tokens of one origin. A refresh token that is null or empty is None. */
  datatype Row = Row(clientId: Option<string>, accessToken: string, refreshToken: Option<RefreshToken>, expiresAt: int)

  /** The committed rows, and the transaction in progress, if any, with the rows as its connection sees them. */
  datatype Disk = Disk(rows: map<string, Row>, writer: Option<Pid>, draft: map<string, Row>)

  function Visible(d: Disk, p: Pid): map<string, Row> {
    if d.writer == Some(p) then d.draft else d.rows
  }

  function Lookup(rows: map<string, Row>, origin: string): Option<Row> {
    if origin in rows then Some(rows[origin]) else None
  }

  /** Another connection holds the write lock. */
  predicate Busy(d: Disk, p: Pid) {
    d.writer.Some? && d.writer != Some(p)
  }

  /** BEGIN IMMEDIATE, once the lock is free. */
  function Begin(d: Disk, p: Pid): Disk {
    Disk(d.rows, Some(p), d.rows)
  }

  /** A write inside the connection's own transaction, or one that commits by itself. */
  function Write(d: Disk, p: Pid, rows: map<string, Row>): Disk
    requires !Busy(d, p)
  {
    if d.writer == Some(p) then Disk(d.rows, d.writer, rows) else Disk(rows, None, rows)
  }

  /** COMMIT or ROLLBACK. */
  function End(d: Disk, commit: bool): Disk {
    var rows := if commit then d.draft else d.rows;
    Disk(rows, None, rows)
  }
}
