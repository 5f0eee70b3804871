/**
 * The transactional sink the batch loader drives: one connection with at
 * most one open transaction and one live prepared statement. Every call may
 * fail; which ones fail is outside the model, so each method chooses its
 * outcome nondeterministically and its contract covers both.
 */
module Db {
  import opened Wrappers
  import opened InsertSql

  /** What a run leaves behind in a sink: the durable rows and the logs of its calls. */
  datatype Log = Logged(committed: seq<Row>, commits: seq<seq<Row>>, execs: seq<seq<SqlValue>>, rollbacks: nat)

  /** A statement prepared from `query` on transaction number `txn`. */
  datatype Stmt = Stmt(query: Insert, txn: nat)

  class Sink {
    /** The rows durable in the table. */
    var committed: seq<Row>
    /** The rows inserted by the open transaction, not yet durable. */
    var pending: seq<Row>
    /** Whether a transaction is open. */
    var open: bool
    /** The number of transactions begun so far; the open one is number `txn`. */
    var txn: nat
    /** The live prepared statement, if any. */
    var stmt: Option<Stmt>
    /** The rows of each successful commit, in order. */
    ghost var commits: seq<seq<Row>>
    /** The argument list of every Exec call, successful or not, in order. */
    ghost var execs: seq<seq<SqlValue>>
    /** The number of Rollback calls. */
    ghost var rollbacks: nat

    ghost predicate Valid()
      reads this
    {
      !open ==> pending == []
    }

    /** The durable rows and the call logs, as one value. */
    ghost function Snapshot(): Log
      reads this
    {
      Logged(committed, commits, execs, rollbacks)
    }

    /** A statement prepared on the open transaction can be executed. */
    ghost predicate Ready()
      reads this
    {
      open && stmt.Some? && stmt.value.txn == txn
    }

    /** A connection to a table holding `rows`, with no transaction open. */
    constructor (rows: seq<Row>)
      ensures Valid() && !open && stmt == None
      ensures committed == rows && commits == [] && execs == [] && rollbacks == 0
    {
      committed, pending, open, txn, stmt := rows, [], false, 0, None;
      commits, execs, rollbacks := [], [], 0;
    }

    /** `db.Begin()`: on success a new, empty transaction is open. */
    method Begin() returns (ok: bool)
      requires Valid() && !open
      modifies this
      ensures Valid() && open == ok
      ensures txn == if ok then old(txn) + 1 else old(txn)
      ensures committed == old(committed) && pending == [] && stmt == old(stmt)
      ensures commits == old(commits) && execs == old(execs) && rollbacks == old(rollbacks)
    {
      ok :| true;
      if ok {
        open, txn := true, txn + 1;
      }
    }

    /** `tx.Prepare(query)`: on success the live statement belongs to the open transaction. */
    method Prepare(query: Insert) returns (ok: bool)
      requires Valid() && open
      modifies this
      ensures Valid() && open
      ensures stmt == if ok then Some(Stmt(query, txn)) else old(stmt)
      ensures committed == old(committed) && pending == old(pending) && txn == old(txn)
      ensures commits == old(commits) && execs == old(execs) && rollbacks == old(rollbacks)
    {
      ok :| true;
      if ok {
        stmt := Some(Stmt(query, txn));
      }
    }

    /**
     * `stmt.Exec(args...)`: on success the bound row joins the open
     * transaction; an argument list that does not match the placeholders
     * always fails.
     */
    method Exec(args: seq<SqlValue>) returns (ok: bool)
      requires Valid() && Ready()
      modifies this
      ensures Valid() && Ready()
      ensures ok ==> Bind(stmt.value.query, args).Some?
      ensures pending == if ok then old(pending) + [Bind(stmt.value.query, args).value] else old(pending)
      ensures txn == old(txn) && stmt == old(stmt)
      ensures Snapshot() == old(Snapshot()).(execs := old(execs) + [args])
    {
      execs := execs + [args];
      var row := Bind(stmt.value.query, args);
      if row.None? {
        ok := false;
      } else {
        ok :| true;
        if ok {
          pending := pending + [row.value];
        }
      }
    }

    /**
     * `tx.Commit()`: the transaction ends either way; on success its rows
     * become durable, on failure none of them do.
     */
    method Commit() returns (ok: bool)
      requires Valid() && open
      modifies this
      ensures Valid() && !open && pending == []
      ensures txn == old(txn) && stmt == old(stmt)
      ensures Snapshot() == if ok then old(Snapshot()).(committed := old(committed) + old(pending), commits := old(commits) + [old(pending)])
                            else old(Snapshot())
    {
      ok :| true;
      if ok {
        committed, commits := committed + pending, commits + [pending];
      }
      open, pending := false, [];
    }

    /**
     * `tx.Rollback()`: the transaction ends and none of its rows become
     * durable; on a transaction that has already ended the call fails and
     * changes nothing.
     */
    method Rollback() returns (ok: bool)
      requires Valid()
      modifies this
      ensures Valid() && !open && pending == []
      ensures ok ==> old(open)
      ensures txn == old(txn) && stmt == old(stmt)
      ensures Snapshot() == old(Snapshot()).(rollbacks := old(rollbacks) + 1)
    {
      if open {
        ok :| true;
      } else {
        ok := false;
      }
      open, pending := false, [];
      rollbacks := rollbacks + 1;
    }

    /** `stmt.Close()`: the statement is closed even when the call reports an error. */
    method CloseStmt() returns (ok: bool)
      requires Valid() && stmt.Some?
      modifies this
      ensures Valid() && stmt == None
      ensures committed == old(committed) && pending == old(pending) && open == old(open) && txn == old(txn)
      ensures commits == old(commits) && execs == old(execs) && rollbacks == old(rollbacks)
    {
      ok :| true;
      stmt := None;
    }
  }
}
