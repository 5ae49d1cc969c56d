/*
 * Sequences of endpoint calls against the one result slot, served one after
 * another: what the slot holds after them, and what `/get_result` reports.
 */
module ServerTraces {
  import opened BackendServer

  /** One inbound call to one of the three endpoints. */
  datatype Call =
    | AnalyzeCall(req: Request, upstream: Upstream, now: Timestamp)
    | GetResultCall
    | HealthCall

  /** One call served against the store it finds. */
  function Serve(store: Record, c: Call, parse: string -> IntParse): Exchange
  {
    match c
    case AnalyzeCall(req, upstream, now) => Analyze(store, req, parse, upstream, now)
    case GetResultCall => Exchange(ResultReply(store), store, None)
    case HealthCall => Exchange(HealthCheck(), store, None)
  }

  /**
   * The record a call writes, if it writes one: an `/analyze` whose selector
   * parses, whose body is non-empty and whose upstream call returns. It does
   * not depend on what the store held before.
   */
  function Written(c: Call, parse: string -> IntParse): Option<Record>
  {
    match c
    case AnalyzeCall(req, upstream, now) =>
      if SelectorOf(req.promptType, parse).Int? && |req.data| > 0 && !upstream.Err? then
        Some(Record(if upstream.Ok? then Some(upstream.text) else None, Some(now)))
      else
        None
    case _ => None
  }

  /** The record the last writing call of a sequence wrote. */
  function LastWrite(calls: seq<Call>, parse: string -> IntParse): Option<Record>
  {
    if calls == [] then None
    else
      var later := LastWrite(calls[1..], parse);
      if later.Some? then later else Written(calls[0], parse)
  }

  /** The store after serving the calls in order. */
  function Final(store: Record, calls: seq<Call>, parse: string -> IntParse): Record
    decreases |calls|
  {
    if calls == [] then store
    else Final(Serve(store, calls[0], parse).store, calls[1..], parse)
  }

  /** The replies to the calls, in order. */
  function Replies(store: Record, calls: seq<Call>, parse: string -> IntParse): (rs: seq<Reply>)
    ensures |rs| == |calls|
    decreases |calls|
  {
    if calls == [] then []
    else [Serve(store, calls[0], parse).reply] + Replies(Serve(store, calls[0], parse).store, calls[1..], parse)
  }

  /** One call overwrites the whole store with what it writes, or leaves it as it was. */
  lemma ServeWrites(store: Record, c: Call, parse: string -> IntParse)
    ensures Serve(store, c, parse).store == if Written(c, parse).Some? then Written(c, parse).value else store
  {
  }

  /** Last write wins: the store after any sequence is the last record written, or the old store if none was. */
  lemma {:induction false} LastWriteWins(store: Record, calls: seq<Call>, parse: string -> IntParse)
    ensures Final(store, calls, parse) == if LastWrite(calls, parse).Some? then LastWrite(calls, parse).value else store
    decreases |calls|
  {
    if calls != [] {
      ServeWrites(store, calls[0], parse);
      LastWriteWins(Serve(store, calls[0], parse).store, calls[1..], parse);
    }
  }

  /** Until some call writes, `/get_result` reports the sentinel text and no timestamp. */
  lemma SentinelUntilFirstWrite(calls: seq<Call>, parse: string -> IntParse)
    requires LastWrite(calls, parse).None?
    ensures ResultReply(Final(Sentinel, calls, parse)) == Reply(200, Latest(Some(SentinelText), None))
  {
    LastWriteWins(Sentinel, calls, parse);
  }

  /** Every written record has a timestamp. */
  lemma {:induction false} LastWriteStamped(calls: seq<Call>, parse: string -> IntParse)
    ensures LastWrite(calls, parse).Some? ==> LastWrite(calls, parse).value.timestamp.Some?
  {
    if calls != [] {
      LastWriteStamped(calls[1..], parse);
    }
  }

  /** From the start of the process, a store without a timestamp is exactly the sentinel. */
  lemma NoTimestampMeansSentinel(calls: seq<Call>, parse: string -> IntParse)
    ensures Final(Sentinel, calls, parse).timestamp.None? <==> Final(Sentinel, calls, parse) == Sentinel
  {
    LastWriteWins(Sentinel, calls, parse);
    LastWriteStamped(calls, parse);
  }

  /**
   * A stored timestamp does not imply a stored response: one `/analyze` whose
   * upstream content is `None` leaves a timestamped record with no response.
   */
  lemma StampedRecordWithoutResponse(parse: string -> IntParse)
    ensures var r := Final(Sentinel, [AnalyzeCall(Request(None, [1]), NoContent, "2024-01-01 00:00:00")], parse);
      r.timestamp.Some? && r.response.None?
  {
  }

  /** After a successful `/analyze`, `/get_result` returns its full text and a timestamp. */
  lemma ReadAfterSuccess(store: Record, req: Request, text: string, now: Timestamp, parse: string -> IntParse)
    requires SelectorOf(req.promptType, parse).Int? && |req.data| > 0
    ensures var rs := Replies(store, [AnalyzeCall(req, Ok(text), now), GetResultCall], parse);
      rs[0].body.Analysis? && rs[1].body == Latest(Some(rs[0].body.fullResponse), Some(now))
  {
  }

  /** With no write in between, the store stays as it was and every `/get_result` returns the same reply. */
  lemma {:induction false} RepeatedReads(store: Record, calls: seq<Call>, parse: string -> IntParse)
    requires LastWrite(calls, parse).None?
    ensures Final(store, calls, parse) == store
    ensures forall i :: 0 <= i < |calls| && calls[i] == GetResultCall ==> Replies(store, calls, parse)[i] == ResultReply(store)
    decreases |calls|
  {
    if calls != [] {
      ServeWrites(store, calls[0], parse);
      assert Serve(store, calls[0], parse).store == store;
      RepeatedReads(store, calls[1..], parse);
      forall i | 0 < i < |calls| && calls[i] == GetResultCall
        ensures Replies(store, calls, parse)[i] == ResultReply(store)
      {
        assert calls[1..][i - 1] == calls[i];
      }
    }
  }

  /** Every `/health` call in any run gets the fixed reply, whatever came before it. */
  lemma {:induction false} HealthIndependentOfHistory(store: Record, calls: seq<Call>, parse: string -> IntParse, i: nat)
    requires i < |calls| && calls[i] == HealthCall
    ensures Replies(store, calls, parse)[i] == Reply(200, Status("Server is running"))
    decreases i
  {
    if i > 0 {
      assert calls[1..][i - 1] == calls[i];
      HealthIndependentOfHistory(Serve(store, calls[0], parse).store, calls[1..], parse, i - 1);
    }
  }
}
