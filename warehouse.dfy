/** The warehouse the writer and reader talk to, seen from the client: every
    existence check, statement and query is appended to a log, and whether a
    statement fails, whether a table exists and what a query returns are
    decided by oracles over that log (the beeline subprocess, or the mock
    answers, behind `execute_ddl`, `check_table_exists` and `execute_sql_query`). */
module Warehouse {
  import opened Results
  import opened Polars
  import opened HiveErrors

  datatype Event =
    | Checked(table: string)    // one existence check of `table`
    | Executed(sql: string)     // a statement the warehouse accepted
    | Refused(sql: string)      // a statement the warehouse rejected
    | Queried(query: string)    // one query sent by the reader

  datatype Probe = Found(present: bool) | ProbeFailed

  datatype Reply = Rows(frame: DataFrame) | QueryRejected

  /** Whether the warehouse rejects a statement, given everything logged before it. */
  type Rejects = (seq<Event>, string) -> bool

  /** What the local file system does with the temporary CSV file at one path:
      whether it can be created, whether the frame can then be written into it,
      and whether removing it afterwards succeeds. */
  datatype Staging = Staging(created: bool, written: bool, removed: bool)

  /** The outside world's answers: whether a statement is rejected, whether a
      table exists, what a query returns (each given everything logged so far),
      and what happens to the local CSV file at a path. */
  datatype Oracles = Oracles(
    rejects: Rejects,
    probe: (seq<Event>, string) -> Probe,
    answer: (seq<Event>, string) -> Reply,
    staging: string -> Staging)

  /** One step of a write: send a statement, fail with an error before sending
      anything more, or create or remove a local temporary file. */
  datatype Step = Exec(sql: string) | Abort(error: Error) | Stage(path: string) | Unstage(path: string)

  /** What running a list of steps did: the events it logged, how it ended and
      which local temporary files exist afterwards. */
  datatype Trace = Trace(events: seq<Event>, outcome: Outcome<Error>, files: set<string>)

  /** The statements a plan sends, in order, if nothing fails. */
  function Sent(steps: seq<Step>): (sqls: seq<string>)
    ensures |sqls| <= |steps|
    decreases |steps|
  {
    if |steps| == 0 then []
    else (if steps[0].Exec? then [steps[0].sql] else []) + Sent(steps[1..])
  }

  /** The log of statements that were all accepted. */
  function Log(sqls: seq<string>): seq<Event> {
    seq(|sqls|, i requires 0 <= i < |sqls| => Executed(sqls[i]))
  }

  /** The log of attempting `sqls` in order: all accepted, or all accepted but the last. */
  function Attempt(sqls: seq<string>, lastRefused: bool): seq<Event> {
    if lastRefused && |sqls| > 0 then Log(sqls[..|sqls| - 1]) + [Refused(sqls[|sqls| - 1])]
    else Log(sqls)
  }

  /** Whether a run's log ends with a refused statement. */
  predicate EndsRefused(events: seq<Event>) {
    |events| > 0 && events[|events| - 1].Refused?
  }

  /** Runs the steps in order and stops at the first rejected statement or abort;
      statements sent before the failure stay executed. */
  function Run(rejects: Rejects, hist: seq<Event>, files: set<string>, steps: seq<Step>): (t: Trace)
    ensures |t.events| <= |Sent(steps)|
    decreases |steps|
  {
    if |steps| == 0 then Trace([], Pass, files)
    else
      match steps[0]
      case Exec(sql) =>
        if rejects(hist, sql) then Trace([Refused(sql)], Fail(ExecutionFailed(sql)), files)
        else
          var rest := Run(rejects, hist + [Executed(sql)], files, steps[1..]);
          Trace([Executed(sql)] + rest.events, rest.outcome, rest.files)
      case Abort(e) => Trace([], Fail(e), files)
      case Stage(p) => Run(rejects, hist, files + {p}, steps[1..])
      case Unstage(p) => Run(rejects, hist, files - {p}, steps[1..])
  }

  lemma SentCons(steps: seq<Step>)
    requires |steps| > 0
    ensures Sent(steps) == (if steps[0].Exec? then [steps[0].sql] else []) + Sent(steps[1..])
  {
  }

  lemma AttemptCons(sql: string, sqls: seq<string>, lastRefused: bool)
    requires lastRefused ==> |sqls| > 0
    ensures Attempt([sql] + sqls, lastRefused) == [Executed(sql)] + Attempt(sqls, lastRefused)
  {
    if lastRefused {
      assert ([sql] + sqls)[..|sqls|] == [sql] + sqls[..|sqls| - 1];
    }
  }

  /** One statement on its own: logged, and the run fails iff the warehouse rejects it. */
  lemma RunOneStatement(rejects: Rejects, hist: seq<Event>, files: set<string>, sql: string)
    ensures Run(rejects, hist, files, [Exec(sql)]) ==
      if rejects(hist, sql) then Trace([Refused(sql)], Fail(ExecutionFailed(sql)), files)
      else Trace([Executed(sql)], Pass, files)
  {
    assert [Exec(sql)][1..] == [];
  }

  /** `t`'s log is a prefix of `sqls`, all accepted except the last when `t` ended
      on a refusal, and a refusal names that last statement. */
  predicate LogsPrefixOf(t: Trace, sqls: seq<string>) {
    |t.events| <= |sqls| &&
    t.events == Attempt(sqls[..|t.events|], EndsRefused(t.events)) &&
    (EndsRefused(t.events) ==> t.outcome == Fail(ExecutionFailed(sqls[|t.events| - 1])))
  }

  /** The log of a run is a prefix of the plan's statements, all accepted except
      the last when the run ended on a refusal, and a refusal names that last statement. */
  lemma {:induction false} RunLogsPrefix(rejects: Rejects, hist: seq<Event>, files: set<string>, steps: seq<Step>)
    ensures LogsPrefixOf(Run(rejects, hist, files, steps), Sent(steps))
    decreases |steps|
  {
    if |steps| > 0 {
      SentCons(steps);
      match steps[0]
      case Exec(sql) =>
        if rejects(hist, sql) {
          assert Sent(steps)[..1] == [sql];
        } else {
          RunLogsPrefix(rejects, hist + [Executed(sql)], files, steps[1..]);
          LogsPrefixAccepted(rejects, hist, files, steps, sql);
        }
      case Abort(e) =>
      case Stage(p) =>
        RunLogsPrefix(rejects, hist, files + {p}, steps[1..]);
        assert Run(rejects, hist, files, steps) == Run(rejects, hist, files + {p}, steps[1..]);
      case Unstage(p) =>
        RunLogsPrefix(rejects, hist, files - {p}, steps[1..]);
        assert Run(rejects, hist, files, steps) == Run(rejects, hist, files - {p}, steps[1..]);
    }
  }

  /** The step of `RunLogsPrefix` for an accepted first statement. */
  lemma LogsPrefixAccepted(rejects: Rejects, hist: seq<Event>, files: set<string>, steps: seq<Step>, sql: string)
    requires |steps| > 0 && steps[0] == Exec(sql) && !rejects(hist, sql)
    requires LogsPrefixOf(Run(rejects, hist + [Executed(sql)], files, steps[1..]), Sent(steps[1..]))
    ensures LogsPrefixOf(Run(rejects, hist, files, steps), Sent(steps))
  {
    SentCons(steps);
    var rest := Run(rejects, hist + [Executed(sql)], files, steps[1..]);
    var t := Run(rejects, hist, files, steps);
    var n := |rest.events|;
    var tail := Sent(steps[1..]);
    assert t.events == [Executed(sql)] + rest.events;
    assert EndsRefused(t.events) == EndsRefused(rest.events);
    assert Sent(steps)[..n + 1] == [sql] + tail[..n];
    AttemptCons(sql, tail[..n], EndsRefused(rest.events));
  }

  /** Each statement of the log got the oracle's verdict given everything logged before it. */
  lemma {:induction false} RunFollowsOracle(rejects: Rejects, hist: seq<Event>, files: set<string>, steps: seq<Step>)
    ensures var t := Run(rejects, hist, files, steps);
      forall i :: 0 <= i < |t.events| ==>
        (t.events[i].Refused? <==> rejects(hist + t.events[..i], Sent(steps)[i]))
    decreases |steps|
  {
    if |steps| > 0 {
      SentCons(steps);
      match steps[0]
      case Exec(sql) =>
        if !rejects(hist, sql) {
          RunFollowsOracle(rejects, hist + [Executed(sql)], files, steps[1..]);
          var rest := Run(rejects, hist + [Executed(sql)], files, steps[1..]);
          var t := Run(rejects, hist, files, steps);
          assert hist + t.events[..0] == hist;
          forall i | 1 <= i < |t.events|
            ensures hist + t.events[..i] == (hist + [Executed(sql)]) + rest.events[..i - 1]
          {
            assert t.events[..i] == [Executed(sql)] + rest.events[..i - 1];
          }
        }
      case Abort(e) =>
      case Stage(p) => RunFollowsOracle(rejects, hist, files + {p}, steps[1..]);
      case Unstage(p) => RunFollowsOracle(rejects, hist, files - {p}, steps[1..]);
    }
  }

  /** A run that succeeds sent every statement of its plan, and all were accepted. */
  lemma {:induction false} RunPassSendsAll(rejects: Rejects, hist: seq<Event>, files: set<string>, steps: seq<Step>)
    ensures var t := Run(rejects, hist, files, steps);
      t.outcome.Pass? ==> t.events == Log(Sent(steps))
    decreases |steps|
  {
    if |steps| > 0 {
      SentCons(steps);
      match steps[0]
      case Exec(sql) =>
        if !rejects(hist, sql) {
          RunPassSendsAll(rejects, hist + [Executed(sql)], files, steps[1..]);
        }
      case Abort(e) =>
      case Stage(p) => RunPassSendsAll(rejects, hist, files + {p}, steps[1..]);
      case Unstage(p) => RunPassSendsAll(rejects, hist, files - {p}, steps[1..]);
    }
  }

  /** Running `a` then `b` is running `a`, and then, only if `a` succeeded, `b`
      after everything `a` logged. */
  predicate Sequenced(rejects: Rejects, hist: seq<Event>, files: set<string>, a: seq<Step>, b: seq<Step>) {
    Run(rejects, hist, files, a + b) ==
      var ta := Run(rejects, hist, files, a);
      if ta.outcome.Fail? then ta
      else
        var tb := Run(rejects, hist + ta.events, ta.files, b);
        Trace(ta.events + tb.events, tb.outcome, tb.files)
  }

  lemma {:induction false} RunAppend(rejects: Rejects, hist: seq<Event>, files: set<string>, a: seq<Step>, b: seq<Step>)
    ensures Sequenced(rejects, hist, files, a, b)
    decreases |a|
  {
    if |a| == 0 {
      assert a + b == b;
      assert hist + [] == hist;
    } else {
      assert (a + b)[0] == a[0];
      assert (a + b)[1..] == a[1..] + b;
      match a[0]
      case Exec(sql) =>
        if !rejects(hist, sql) {
          RunAppend(rejects, hist + [Executed(sql)], files, a[1..], b);
          AppendAccepted(rejects, hist, files, a, b, sql);
        }
      case Abort(e) =>
      case Stage(p) => RunAppend(rejects, hist, files + {p}, a[1..], b);
      case Unstage(p) => RunAppend(rejects, hist, files - {p}, a[1..], b);
    }
  }

  /** An accepted first statement is logged ahead of the run of the rest. */
  lemma RunAccepted(rejects: Rejects, hist: seq<Event>, files: set<string>, steps: seq<Step>, sql: string)
    requires |steps| > 0 && steps[0] == Exec(sql) && !rejects(hist, sql)
    ensures var r := Run(rejects, hist + [Executed(sql)], files, steps[1..]);
      Run(rejects, hist, files, steps) == Trace([Executed(sql)] + r.events, r.outcome, r.files)
  {
  }

  /** The step of `RunAppend` for an accepted first statement. */
  lemma AppendAccepted(rejects: Rejects, hist: seq<Event>, files: set<string>, a: seq<Step>, b: seq<Step>, sql: string)
    requires |a| > 0 && a[0] == Exec(sql) && !rejects(hist, sql)
    requires Sequenced(rejects, hist + [Executed(sql)], files, a[1..], b)
    ensures Sequenced(rejects, hist, files, a, b)
  {
    var h := hist + [Executed(sql)];
    assert (a + b)[0] == a[0];
    assert (a + b)[1..] == a[1..] + b;
    RunAccepted(rejects, hist, files, a, sql);
    RunAccepted(rejects, hist, files, a + b, sql);
    var rest := Run(rejects, h, files, a[1..]);
    if rest.outcome.Pass? {
      AcceptedThenPassed(rejects, hist, files, a, b, sql, rest);
    }
  }

  /** `AppendAccepted` when the rest of `a` also succeeds. */
  lemma AcceptedThenPassed(rejects: Rejects, hist: seq<Event>, files: set<string>, a: seq<Step>, b: seq<Step>, sql: string,
                           rest: Trace)
    requires |a| > 0 && rest == Run(rejects, hist + [Executed(sql)], files, a[1..]) && rest.outcome.Pass?
    requires Run(rejects, hist, files, a) == Trace([Executed(sql)] + rest.events, rest.outcome, rest.files)
    requires var both := Run(rejects, hist + [Executed(sql)], files, a[1..] + b);
      Run(rejects, hist, files, a + b) == Trace([Executed(sql)] + both.events, both.outcome, both.files)
    requires Sequenced(rejects, hist + [Executed(sql)], files, a[1..], b)
    ensures Sequenced(rejects, hist, files, a, b)
  {
    var h := hist + [Executed(sql)];
    var tb := Run(rejects, h + rest.events, rest.files, b);
    assert h + rest.events == hist + ([Executed(sql)] + rest.events);
    assert [Executed(sql)] + (rest.events + tb.events) == ([Executed(sql)] + rest.events) + tb.events;
  }

  /** A run that succeeded on `a`, followed by a run of `b` from where it left off,
      is the run of `a + b`. */
  lemma RunThen(rejects: Rejects, hist: seq<Event>, files: set<string>, a: seq<Step>, b: seq<Step>,
                mid: seq<Event>, midFiles: set<string>)
    requires Run(rejects, hist, files, a).outcome == Pass
    requires mid == hist + Run(rejects, hist, files, a).events && midFiles == Run(rejects, hist, files, a).files
    ensures var tb := Run(rejects, mid, midFiles, b);
      Run(rejects, hist, files, a + b) == Trace(Run(rejects, hist, files, a).events + tb.events, tb.outcome, tb.files)
    ensures hist + Run(rejects, hist, files, a + b).events == mid + Run(rejects, mid, midFiles, b).events
  {
    RunAppend(rejects, hist, files, a, b);
  }

  /** A run that fails on `a` never reaches `b`. */
  lemma RunStops(rejects: Rejects, hist: seq<Event>, files: set<string>, a: seq<Step>, b: seq<Step>)
    requires Run(rejects, hist, files, a).outcome.Fail?
    ensures Run(rejects, hist, files, a + b) == Run(rejects, hist, files, a)
  {
    RunAppend(rejects, hist, files, a, b);
  }

  /** With the first `k` steps run cleanly, the next statement either extends the clean
      run or, refused, ends the whole run right there. */
  lemma RunNextStatement(rejects: Rejects, hist: seq<Event>, files: set<string>, steps: seq<Step>, k: nat, sql: string)
    requires k < |steps| && steps[k] == Exec(sql)
    requires Run(rejects, hist, files, steps[..k]).outcome == Pass && Run(rejects, hist, files, steps[..k]).files == files
    ensures var before := hist + Run(rejects, hist, files, steps[..k]).events;
      if rejects(before, sql) then
        var t := Run(rejects, hist, files, steps);
        t.outcome == Fail(ExecutionFailed(sql)) && hist + t.events == before + [Refused(sql)] && t.files == files
      else
        var t := Run(rejects, hist, files, steps[..k + 1]);
        t.outcome == Pass && hist + t.events == before + [Executed(sql)] && t.files == files
  {
    var before := hist + Run(rejects, hist, files, steps[..k]).events;
    assert steps[..k + 1] == steps[..k] + [Exec(sql)];
    RunThen(rejects, hist, files, steps[..k], [Exec(sql)], before, files);
    RunOneStatement(rejects, before, files, sql);
    if rejects(before, sql) {
      assert steps == steps[..k + 1] + steps[k + 1..];
      RunStops(rejects, hist, files, steps[..k + 1], steps[k + 1..]);
    }
  }

  /** What a query returns for the warehouse's reply: its rows, or the query as the error. */
  function Answer(reply: Reply, sql: string): Result<DataFrame, Error> {
    match reply
    case Rows(frame) => Ok(frame)
    case QueryRejected => Err(QueryFailed(sql))
  }

  /** The warehouse connection: a log of what was sent and the local temporary
      files left behind, with the oracles that answer for the server. */
  class Client {
    var log: seq<Event>
    var tempFiles: set<string>
    const oracles: Oracles

    constructor (oracles: Oracles)
      ensures log == [] && tempFiles == {} && this.oracles == oracles
    {
      log := [];
      tempFiles := {};
      this.oracles := oracles;
    }

    /** `execute_ddl`: sends one statement; it fails iff the warehouse rejects it. */
    method ExecuteDdl(sql: string) returns (r: Outcome<Error>)
      modifies this`log
      ensures r == (if oracles.rejects(old(log), sql) then Fail(ExecutionFailed(sql)) else Pass)
      ensures log == old(log) + [if r.Pass? then Executed(sql) else Refused(sql)]
    {
      if oracles.rejects(log, sql) {
        r := Fail(ExecutionFailed(sql));
        log := log + [Refused(sql)];
      } else {
        r := Pass;
        log := log + [Executed(sql)];
      }
    }

    /** `check_table_exists`: one existence check, logged. */
    method CheckTableExists(table: string) returns (r: Result<bool, Error>)
      modifies this`log
      ensures log == old(log) + [Checked(table)]
      ensures r == match oracles.probe(old(log), table)
                   case Found(present) => Ok(present)
                   case ProbeFailed => Err(ExistenceCheckFailed(table))
    {
      var p := oracles.probe(log, table);
      log := log + [Checked(table)];
      match p {
        case Found(present) => r := Ok(present);
        case ProbeFailed => r := Err(ExistenceCheckFailed(table));
      }
    }

    /** `execute_sql_query`: one query, logged. */
    method ExecuteQuery(sql: string) returns (r: Result<DataFrame, Error>)
      modifies this`log
      ensures log == old(log) + [Queried(sql)]
      ensures r == Answer(oracles.answer(old(log), sql), sql)
    {
      var reply := oracles.answer(log, sql);
      log := log + [Queried(sql)];
      match reply {
        case Rows(frame) => r := Ok(frame);
        case QueryRejected => r := Err(QueryFailed(sql));
      }
    }

    /** Creates the CSV file at `path`, then writes the frame into it: the file
        exists afterwards iff it could be created, even when the write failed,
        and `ok` says whether both steps succeeded. */
    method StageFile(path: string) returns (ok: bool)
      modifies this`tempFiles
      ensures ok == (oracles.staging(path).created && oracles.staging(path).written)
      ensures tempFiles == if oracles.staging(path).created then old(tempFiles) + {path} else old(tempFiles)
    {
      var st := oracles.staging(path);
      if !st.created {
        return false;
      }
      tempFiles := tempFiles + {path};
      ok := st.written;
    }

    /** Removes the file at `path`; a removal that fails is not reported, and the file then stays. */
    method RemoveFile(path: string)
      modifies this`tempFiles
      ensures tempFiles == if oracles.staging(path).removed then old(tempFiles) - {path} else old(tempFiles)
    {
      if oracles.staging(path).removed {
        tempFiles := tempFiles - {path};
      }
    }
  }
}
