/**
 * The audit-log query (`routers/logs.py`): filter the stored logs by agent and by an inclusive
 * time range, then order them newest first.
 *
 * Timestamps are instants (`int`). Parsing an ISO-8601 text into an instant is a parameter,
 * `parse`, which answers `None` where `datetime.fromisoformat` raises `ValueError`.
 */
module LogsRouter {
  import opened Common
  import opened Models
  import Text

  /** The two 400 answers, told apart by which bound failed to parse. */
  datatype QueryError = InvalidStartTime | InvalidEndTime

  function Detail(e: QueryError): string {
    match e
    case InvalidStartTime => "Invalid start_time format. Use ISO format (YYYY-MM-DDTHH:MM:SS)"
    case InvalidEndTime => "Invalid end_time format. Use ISO format (YYYY-MM-DDTHH:MM:SS)"
  }

  /**
   * A time bound: absent (or empty) means no bound; otherwise "Z" is rewritten to "+00:00" and the
   * text parsed, `None` on failure.
   */
  function ParseBound(raw: Option<string>, parse: string -> Option<int>): (r: Option<Option<int>>)
    ensures !Truthy(raw) ==> r == Some(None)
    ensures Truthy(raw) ==> (r.Some? <==> parse(Text.ReplaceChar(raw.value, 'Z', "+00:00")).Some?)
    ensures Truthy(raw) && r.Some? ==> r.value == parse(Text.ReplaceChar(raw.value, 'Z', "+00:00"))
  {
    if !Truthy(raw) then Some(None)
    else match parse(Text.ReplaceChar(raw.value, 'Z', "+00:00"))
      case None => None
      case Some(t) => Some(Some(t))
  }

  /** The `where` clauses: the agent when one is given, and both bounds inclusive. */
  predicate Matches(l: Log, agentId: Option<string>, start: Option<int>, end: Option<int>) {
    && (Truthy(agentId) ==> l.agentId == agentId.value)
    && (start.Some? ==> l.timestamp >= start.value)
    && (end.Some? ==> l.timestamp <= end.value)
  }

  /** The stored logs that satisfy every filter, each as often as it is stored. */
  function Filter(logs: seq<Log>, agentId: Option<string>, start: Option<int>, end: Option<int>): (r: seq<Log>)
    ensures forall l :: l in r <==> l in logs && Matches(l, agentId, start, end)
    ensures forall l :: multiset(r)[l] == if Matches(l, agentId, start, end) then multiset(logs)[l] else 0
  {
    if logs == [] then []
    else
      var rest := Filter(logs[1..], agentId, start, end);
      assert logs == [logs[0]] + logs[1..];
      if Matches(logs[0], agentId, start, end) then [logs[0]] + rest else rest
  }

  /** `order_by(Log.timestamp.desc())`. */
  predicate NewestFirst(s: seq<Log>) {
    forall i, j :: 0 <= i < j < |s| ==> s[i].timestamp >= s[j].timestamp
  }

  /** Places `l` ahead of the first log that is not newer than it. */
  function Insert(l: Log, s: seq<Log>): (r: seq<Log>)
    requires NewestFirst(s)
    ensures NewestFirst(r)
    ensures multiset(r) == multiset(s) + multiset{l}
    ensures r[0] == l || r[0] == s[0]
  {
    if s == [] || l.timestamp >= s[0].timestamp then
      ConsNewestFirst(l, s);
      [l] + s
    else
      assert s == [s[0]] + s[1..];
      TailNewestFirst(s);
      var t := Insert(l, s[1..]);
      assert t[0] == l || t[0] == s[1];
      ConsNewestFirst(s[0], t);
      [s[0]] + t
  }

  lemma TailNewestFirst(s: seq<Log>)
    requires s != [] && NewestFirst(s)
    ensures NewestFirst(s[1..])
  {
    var t := s[1..];
    forall i, j | 0 <= i < j < |t|
      ensures t[i].timestamp >= t[j].timestamp
    {
      assert t[i] == s[i + 1] && t[j] == s[j + 1];
    }
  }

  lemma ConsNewestFirst(x: Log, t: seq<Log>)
    requires NewestFirst(t) && (t != [] ==> x.timestamp >= t[0].timestamp)
    ensures NewestFirst([x] + t)
  {
    var r := [x] + t;
    forall i, j | 0 <= i < j < |r|
      ensures r[i].timestamp >= r[j].timestamp
    {
      assert r[j] == t[j - 1];
      if i > 0 {
        assert r[i] == t[i - 1];
      } else if j > 1 {
        assert t[0].timestamp >= t[j - 1].timestamp;
      }
    }
  }

  /** Orders logs newest first; among equal timestamps, which the query leaves unordered, storage order is kept. */
  function SortNewestFirst(s: seq<Log>): (r: seq<Log>)
    ensures NewestFirst(r)
    ensures multiset(r) == multiset(s)
  {
    if s == [] then []
    else
      assert s == [s[0]] + s[1..];
      Insert(s[0], SortNewestFirst(s[1..]))
  }

  /**
   * `get_logs`: 400 when a given start or end time does not parse (the start is tried first);
   * otherwise every stored log that passes the filters, each as often as it is stored, newest first.
   */
  function GetLogs(
    logs: seq<Log>, agentId: Option<string>, startTime: Option<string>, endTime: Option<string>,
    parse: string -> Option<int>): (r: Result<seq<Log>, QueryError>)
    ensures ParseBound(startTime, parse).None? ==> r == Failure(InvalidStartTime)
    ensures ParseBound(startTime, parse).Some? && ParseBound(endTime, parse).None? ==> r == Failure(InvalidEndTime)
    ensures ParseBound(startTime, parse).Some? && ParseBound(endTime, parse).Some? ==>
      var start := ParseBound(startTime, parse).value;
      var end := ParseBound(endTime, parse).value;
      && r.Success?
      && NewestFirst(r.value)
      && (forall l :: l in r.value <==> l in logs && Matches(l, agentId, start, end))
      && (forall l :: multiset(r.value)[l] == if Matches(l, agentId, start, end) then multiset(logs)[l] else 0)
  {
    match ParseBound(startTime, parse)
    case None => Failure(InvalidStartTime)
    case Some(start) =>
      match ParseBound(endTime, parse)
      case None => Failure(InvalidEndTime)
      case Some(end) =>
        var r := SortNewestFirst(Filter(logs, agentId, start, end));
        assert forall l :: l in r <==> l in multiset(r);
        Success(r)
  }

  /** Without filters the query returns every stored log. */
  lemma UnfilteredQueryReturnsAll(logs: seq<Log>, parse: string -> Option<int>)
    ensures GetLogs(logs, None, None, None, parse).Success?
    ensures multiset(GetLogs(logs, None, None, None, parse).value) == multiset(logs)
  {
    var r := GetLogs(logs, None, None, None, parse).value;
    assert forall l :: multiset(r)[l] == multiset(logs)[l];
  }

  /** Widening the time range never loses a log. */
  lemma {:induction false} WiderRangeKeepsLogs(logs: seq<Log>, agentId: Option<string>, s1: int, e1: int, s2: int, e2: int)
    requires s2 <= s1 && e1 <= e2
    ensures multiset(Filter(logs, agentId, Some(s1), Some(e1))) <= multiset(Filter(logs, agentId, Some(s2), Some(e2)))
  {
    if logs != [] {
      WiderRangeKeepsLogs(logs[1..], agentId, s1, e1, s2, e2);
    }
  }
}
