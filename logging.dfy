/** The request-logging middleware (package `middleware`): a response recorder
    that captures the status code and the byte count, the log level rule, and
    the paths exempt from logging. */
module Logging {
  import opened Wrappers

  const StatusOK := 200

  datatype Level = Info | Warn | Error

  /** `logEvent`: 5xx is an error, 4xx a warning, anything else information. */
  function LevelFor(status: int): (l: Level)
    ensures l == Error <==> status >= 500
    ensures l == Warn <==> 400 <= status < 500
    ensures l == Info <==> status < 400
  {
    if status >= 500 then Error else if status >= 400 then Warn else Info
  }

  /** The status a response ends with: the last one written, else 200. */
  function LastStatus(codes: seq<int>): int {
    if codes == [] then StatusOK else codes[|codes| - 1]
  }

  function Sum(s: seq<int>): int
    decreases |s|
  {
    if s == [] then 0 else Sum(s[..|s| - 1]) + s[|s| - 1]
  }

  /** `responseWriter`: forwards to the underlying writer and records what passed. */
  class ResponseRecorder {
    var statusCode: int
    var written: int
    ghost var statusWrites: seq<int>
    ghost var byteCounts: seq<int>

    ghost predicate Valid()
      reads this
    {
      statusCode == LastStatus(statusWrites) && written == Sum(byteCounts)
    }

    constructor()
      ensures Valid() && statusWrites == [] && byteCounts == []
      ensures statusCode == StatusOK && written == 0
    {
      statusCode := StatusOK;
      written := 0;
      statusWrites := [];
      byteCounts := [];
    }

    /** `WriteHeader`: every call overwrites the recorded status. */
    method WriteHeader(code: int)
      requires Valid()
      modifies this
      ensures Valid()
      ensures statusWrites == old(statusWrites) + [code] && byteCounts == old(byteCounts)
      ensures statusCode == code && written == old(written)
    {
      statusCode := code;
      statusWrites := statusWrites + [code];
    }

    /** `Write`; `accepted` is the count the underlying writer reports. */
    method Write(accepted: int) returns (n: int)
      requires Valid()
      modifies this
      ensures Valid()
      ensures n == accepted
      ensures byteCounts == old(byteCounts) + [accepted] && statusWrites == old(statusWrites)
      ensures written == old(written) + accepted && statusCode == old(statusCode)
    {
      n := accepted;
      written := written + n;
      byteCounts := byteCounts + [n];
      assert byteCounts[..|byteCounts| - 1] == old(byteCounts);
    }
  }

  /** What the wrapped handler does to the response, call by call. */
  datatype Action = SetStatus(code: int) | WriteBody(accepted: int)

  function StatusWrites(actions: seq<Action>): seq<int>
    decreases |actions|
  {
    if actions == [] then []
    else
      var rest := StatusWrites(actions[..|actions| - 1]);
      match actions[|actions| - 1]
      case SetStatus(c) => rest + [c]
      case WriteBody(_) => rest
  }

  function ByteCounts(actions: seq<Action>): seq<int>
    decreases |actions|
  {
    if actions == [] then []
    else
      var rest := ByteCounts(actions[..|actions| - 1]);
      match actions[|actions| - 1]
      case SetStatus(_) => rest
      case WriteBody(n) => rest + [n]
  }

  /** The recorded status: the last code the handler wrote, or 200 when it wrote none. */
  lemma {:induction false} FinalStatusIsLastWritten(actions: seq<Action>)
    ensures (forall i | 0 <= i < |actions| :: actions[i].WriteBody?) ==> LastStatus(StatusWrites(actions)) == StatusOK
    ensures forall i | 0 <= i < |actions| && actions[i].SetStatus? ::
      (forall j | i < j < |actions| :: actions[j].WriteBody?) ==> LastStatus(StatusWrites(actions)) == actions[i].code
    decreases |actions|
  {
    if actions != [] {
      var init := actions[..|actions| - 1];
      FinalStatusIsLastWritten(init);
      forall i | 0 <= i < |actions| && actions[i].SetStatus? && (forall j | i < j < |actions| :: actions[j].WriteBody?)
        ensures LastStatus(StatusWrites(actions)) == actions[i].code
      {
        if i < |actions| - 1 {
          assert init[i] == actions[i];
          assert forall j | i < j < |init| :: init[j].WriteBody? by {
            forall j | i < j < |init| ensures init[j].WriteBody? {
              assert init[j] == actions[j];
            }
          }
        }
      }
      if forall i | 0 <= i < |actions| :: actions[i].WriteBody? {
        assert forall i | 0 <= i < |init| :: init[i].WriteBody? by {
          forall i | 0 <= i < |init| ensures init[i].WriteBody? {
            assert init[i] == actions[i];
          }
        }
      }
    }
  }

  datatype Request = Request(verb: string, path: string, remoteAddr: string)

  /** The fields of the "HTTP request" log entry. */
  datatype LogEntry = LogEntry(level: Level, verb: string, path: string, remoteAddr: string,
                               status: int, bytes: int, durationNs: int, message: string)

  function EntryFor(r: Request, status: int, bytes: int, durationNs: int): (e: LogEntry)
    ensures e.level == LevelFor(status) && e.status == status && e.bytes == bytes
    ensures e.verb == r.verb && e.path == r.path && e.remoteAddr == r.remoteAddr
  {
    LogEntry(LevelFor(status), r.verb, r.path, r.remoteAddr, status, bytes, durationNs, "HTTP request")
  }

  /** Runs the wrapped handler's calls against a fresh recorder. */
  method Record(actions: seq<Action>) returns (status: int, written: int)
    ensures status == LastStatus(StatusWrites(actions))
    ensures written == Sum(ByteCounts(actions))
  {
    var rw := new ResponseRecorder();
    for i := 0 to |actions|
      invariant rw.Valid()
      invariant rw.statusWrites == StatusWrites(actions[..i])
      invariant rw.byteCounts == ByteCounts(actions[..i])
    {
      assert actions[..i + 1][..i] == actions[..i];
      match actions[i]
      case SetStatus(c) =>
        rw.WriteHeader(c);
      case WriteBody(n) =>
        var _ := rw.Write(n);
    }
    assert actions[..|actions|] == actions;
    return rw.statusCode, rw.written;
  }

  /** `RequestLogger`: every request is logged once, after the handler returns;
      `durationNs` is the measured handling time. */
  method ServeLogged(r: Request, next: seq<Action>, durationNs: int) returns (entry: LogEntry)
    ensures entry == EntryFor(r, LastStatus(StatusWrites(next)), Sum(ByteCounts(next)), durationNs)
  {
    var status, written := Record(next);
    entry := EntryFor(r, status, written, durationNs);
  }

  /** The skip set built by `RequestLoggerWithSkip`. */
  method SkipSet(skipPaths: seq<string>) returns (skip: set<string>)
    ensures skip == set p | p in skipPaths
  {
    skip := {};
    for i := 0 to |skipPaths|
      invariant skip == set p | p in skipPaths[..i]
    {
      assert skipPaths[..i + 1] == skipPaths[..i] + [skipPaths[i]];
      skip := skip + {skipPaths[i]};
    }
    assert skipPaths[..|skipPaths|] == skipPaths;
  }

  /** The handler of `RequestLoggerWithSkip`: skipped paths produce no entry,
      every other request exactly one. */
  method ServeWithSkip(skip: set<string>, r: Request, next: seq<Action>, durationNs: int)
    returns (entry: Option<LogEntry>)
    ensures entry.None? <==> r.path in skip
    ensures entry.Some? ==> entry.value == EntryFor(r, LastStatus(StatusWrites(next)), Sum(ByteCounts(next)), durationNs)
  {
    if r.path in skip {
      return None;
    }
    var e := ServeLogged(r, next, durationNs);
    return Some(e);
  }

  /** A 201 with five bytes written is logged at information level with both. */
  lemma CreatedExample(r: Request, d: int)
    ensures var next := [SetStatus(201), WriteBody(5)];
      var e := EntryFor(r, LastStatus(StatusWrites(next)), Sum(ByteCounts(next)), d);
      e.status == 201 && e.bytes == 5 && e.level == Info
  {
    var next := [SetStatus(201), WriteBody(5)];
    assert next[..1] == [SetStatus(201)];
    assert next[..1][..0] == [];
  }
}
