/**
 * DBSQLScript: an ordered, append-only list of SQL statements that can be
 * run in order against a database and printed as one script.
 */
module SqlScripts {
  import opened SqlTypes
  import opened Text

  /** What follows every statement in the printed script. */
  const COMMAND_SEPARATOR: string := ";\r\n\r\n"

  /** The printed script: every statement followed by the separator, the last one included. */
  function Serialize(stmts: seq<string>): string
  {
    if |stmts| == 0 then ""
    else Serialize(stmts[..|stmts| - 1]) + stmts[|stmts| - 1] + COMMAND_SEPARATOR
  }

  /** Printing two scripts one after the other is printing their concatenation. */
  lemma {:induction false} SerializeConcat(a: seq<string>, b: seq<string>)
    ensures Serialize(a + b) == Serialize(a) + Serialize(b)
    decreases |b|
  {
    if |b| == 0 {
      assert a + b == a;
    } else {
      var b' := b[..|b| - 1];
      assert (a + b)[..|a + b| - 1] == a + b';
      SerializeConcat(a, b');
    }
  }

  /** The printed script holds every statement's text and one separator per statement. */
  lemma {:induction false} SerializeLength(stmts: seq<string>)
    ensures |Serialize(stmts)| == TotalLength(stmts) + |stmts| * |COMMAND_SEPARATOR|
  {
    if |stmts| > 0 {
      var init := stmts[..|stmts| - 1];
      SerializeLength(init);
      var k := |init|;
      assert (k + 1) * |COMMAND_SEPARATOR| == k * |COMMAND_SEPARATOR| + |COMMAND_SEPARATOR|;
    }
  }

  /** A non-empty script ends with the separator. */
  lemma SerializeTerminated(stmts: seq<string>)
    requires |stmts| > 0
    ensures var s := Serialize(stmts); |s| >= |COMMAND_SEPARATOR| && s[|s| - |COMMAND_SEPARATOR|..] == COMMAND_SEPARATOR
  {
  }

  /** 0, 1, ..., n - 1: the positions of the statements that were executed. */
  function Indices(n: nat): (r: seq<nat>)
    ensures |r| == n && forall i :: 0 <= i < n ==> r[i] == i
  {
    seq(n, i requires 0 <= i < n => i as nat)
  }

  /** A StringBuilder that a statement is assembled in. */
  class SqlBuffer {
    var text: string

    constructor (text: string)
      ensures this.text == text
    {
      this.text := text;
    }
  }

  class SqlScript {
    var stmts: seq<string>

    /** An empty script. */
    constructor ()
      ensures stmts == []
    {
      stmts := [];
    }

    /** addStmt(String): appends at the end and reports success. */
    method AddStmt(sql: string) returns (ok: bool)
      modifies this
      ensures stmts == old(stmts) + [sql]
      ensures ok
    {
      stmts := stmts + [sql];
      ok := true;
    }

    /** addStmt(StringBuilder): appends the builder's text and then empties the builder. */
    method AddStmtFrom(sql: SqlBuffer) returns (ok: bool)
      modifies this, sql
      ensures stmts == old(stmts) + [old(sql.text)]
      ensures sql.text == ""
      ensures ok
    {
      ok := AddStmt(sql.text);
      if !ok {
        return;
      }
      sql.text := "";
    }

    /** getCount(): the number of statements added since creation or the last clear. */
    function Count(): (n: nat)
      reads this
      ensures n == |stmts|
    {
      |stmts|
    }

    /** getStmt(i): the i-th statement in the order it was added. */
    function GetStmt(i: int): (s: string)
      requires 0 <= i < Count()
      reads this
      ensures s == stmts[i]
    {
      stmts[i]
    }

    /** clear() */
    method Clear()
      modifies this
      ensures stmts == []
    {
      stmts := [];
    }

    /**
     * run(driver, conn, ignoreErrors): executes the statements in order.
     * `exec` stands for the database: exec(i, s) tells whether executing s
     * as the i-th statement succeeds. `executed` lists the positions that
     * were executed. Without ignoreErrors the first failure stops the run
     * with an SQL error; with it every statement is tried and the run
     * succeeds.
     */
    method Run(ignoreErrors: bool, exec: (nat, string) -> bool) returns (status: Status, executed: seq<nat>)
      ensures ignoreErrors ==> status == Ok && executed == Indices(|stmts|)
      ensures !ignoreErrors ==>
        (status == Ok <==> forall i :: 0 <= i < |stmts| ==> exec(i, stmts[i]))
      ensures !ignoreErrors && status == Ok ==> executed == Indices(|stmts|)
      ensures !ignoreErrors && status != Ok ==>
        status == Failed(SqlException)
        && 0 < |executed| <= |stmts| && executed == Indices(|executed|)
        && !exec(|executed| - 1, stmts[|executed| - 1])
        && forall i :: 0 <= i < |executed| - 1 ==> exec(i, stmts[i])
    {
      executed := [];
      var i := 0;
      while i < |stmts|
        invariant 0 <= i <= |stmts|
        invariant executed == Indices(i)
        invariant !ignoreErrors ==> forall k :: 0 <= k < i ==> exec(k, stmts[k])
      {
        var ok := exec(i, stmts[i]);
        executed := executed + [i];
        if !ok && !ignoreErrors {
          return Failed(SqlException), executed;
        }
        i := i + 1;
      }
      status := Ok;
    }

    /** toString(): the printed script. */
    method ToString() returns (s: string)
      ensures s == Serialize(stmts)
    {
      s := "";
      var i := 0;
      while i < |stmts|
        invariant 0 <= i <= |stmts|
        invariant s == Serialize(stmts[..i])
      {
        assert stmts[..i + 1][..i] == stmts[..i];
        s := s + stmts[i] + COMMAND_SEPARATOR;
        i := i + 1;
      }
      assert stmts[..|stmts|] == stmts;
    }
  }
}
