/** The SQL-query bookkeeping of the graph's `chat_node`: the tool calls of the model's
    response are folded, in order, into the conversation's `sql_queries` list. */
module SqlTracking {
  import opened Optional
  import opened Sequences
  import opened Messages

  /** Tool names of the SQL toolkit start with this text. */
  const SqlToolPrefix: string := "sql_db"

  predicate StartsWith(s: string, prefix: string)
  {
    |prefix| <= |s| && s[..|prefix|] == prefix
  }

  /** A call whose query the node records when it is new: the tool name is present and
      names an SQL tool, and the query text is non-empty. An empty name is falsy in the
      source and also fails the prefix test, so both reject it. */
  predicate Trackable(tc: ToolCall)
  {
    tc.toolName.Some? && StartsWith(tc.toolName.value, SqlToolPrefix) && tc.query != ""
  }

  /** One iteration of the loop over the tool calls. */
  function Record(queries: seq<string>, tc: ToolCall): seq<string>
  {
    if Trackable(tc) && tc.query !in queries then queries + [tc.query] else queries
  }

  /** The query texts of all trackable calls in `calls`. */
  function TrackedQueries(calls: seq<ToolCall>): set<string>
  {
    set i | 0 <= i < |calls| && Trackable(calls[i]) :: calls[i].query
  }

  lemma TrackedQueriesSnoc(calls: seq<ToolCall>, tc: ToolCall)
    ensures TrackedQueries(calls + [tc])
         == TrackedQueries(calls) + (if Trackable(tc) then {tc.query} else {})
  {
    var c := calls + [tc];
    forall x | x in TrackedQueries(c)
      ensures x in TrackedQueries(calls) || (Trackable(tc) && x == tc.query)
    {
      var i :| 0 <= i < |c| && Trackable(c[i]) && c[i].query == x;
      if i < |calls| {
        assert calls[i] == c[i];
      }
    }
    forall x | x in TrackedQueries(calls)
      ensures x in TrackedQueries(c)
    {
      var i :| 0 <= i < |calls| && Trackable(calls[i]) && calls[i].query == x;
      assert c[i] == calls[i];
    }
    if Trackable(tc) {
      assert c[|calls|] == tc;
    }
  }

  /** The whole loop: the calls are visited left to right, and the list built so far is
      consulted for duplicates, so a query repeated within one response is kept once. */
  function Accumulate(queries: seq<string>, calls: seq<ToolCall>): (r: seq<string>)
    // nothing is removed or reordered
    ensures queries <= r
    // a query is listed afterwards exactly when it was listed before or some call tracks it
    ensures forall x :: x in r <==> x in queries || x in TrackedQueries(calls)
    // a duplicate-free list stays duplicate-free
    ensures NoDuplicates(queries) ==> NoDuplicates(r)
    decreases |calls|
  {
    if |calls| == 0 then queries
    else
      var init, last := calls[..|calls| - 1], calls[|calls| - 1];
      assert calls == init + [last];
      TrackedQueriesSnoc(init, last);
      var acc := Accumulate(queries, init);
      AppendFreshKeepsNoDuplicates(acc, last.query);
      Record(acc, last)
  }

  /** The graph state the node reads: the message log and, if present, the query list. */
  datatype ChatState = ChatState(messages: seq<Message>, sqlQueries: Option<seq<string>>)

  /** The partial state the node returns: a one-message delta and the full query list. */
  datatype NodeUpdate = NodeUpdate(messages: seq<Message>, sqlQueries: seq<string>)

  /** `chat_node` after the model call: `response` is what the model returned for
      `state.messages`. A response without a `tool_calls` attribute is `None`. */
  function ChatNode(state: ChatState, response: Message): (u: NodeUpdate)
    ensures u.messages == [response]
    ensures state.sqlQueries.GetOr([]) <= u.sqlQueries
    ensures forall x :: x in u.sqlQueries <==>
      x in state.sqlQueries.GetOr([]) || (response.toolCalls.Some? && x in TrackedQueries(response.toolCalls.value))
    ensures response.toolCalls.None? ==> u.sqlQueries == state.sqlQueries.GetOr([])
    ensures NoDuplicates(state.sqlQueries.GetOr([])) ==> NoDuplicates(u.sqlQueries)
  {
    var queries := state.sqlQueries.GetOr([]);
    match response.toolCalls
    case None => NodeUpdate([response], queries)
    case Some(calls) => NodeUpdate([response], Accumulate(queries, calls))
  }

  /** When every query the calls would track is already listed, the fold changes nothing. */
  lemma {:induction false} SaturatedUnchanged(queries: seq<string>, calls: seq<ToolCall>)
    requires forall x :: x in TrackedQueries(calls) ==> x in queries
    ensures Accumulate(queries, calls) == queries
    decreases |calls|
  {
    if |calls| > 0 {
      var init, last := calls[..|calls| - 1], calls[|calls| - 1];
      assert calls == init + [last];
      TrackedQueriesSnoc(init, last);
      SaturatedUnchanged(queries, init);
    }
  }

  /** Calls that are not trackable (no tool name, a non-SQL name, an empty query) leave the
      list exactly as it was. */
  lemma UntrackableCallsIgnored(queries: seq<string>, calls: seq<ToolCall>)
    requires forall i :: 0 <= i < |calls| ==> !Trackable(calls[i])
    ensures Accumulate(queries, calls) == queries
  {
    assert TrackedQueries(calls) == {};
    SaturatedUnchanged(queries, calls);
  }

  /** Running the fold again over the same calls, on its own output, changes nothing. */
  lemma AccumulateIdempotent(queries: seq<string>, calls: seq<ToolCall>)
    ensures Accumulate(Accumulate(queries, calls), calls) == Accumulate(queries, calls)
  {
    SaturatedUnchanged(Accumulate(queries, calls), calls);
  }

  /** Folding two batches of calls one after the other is folding their concatenation:
      the list carried from one turn to the next behaves as one long fold. */
  lemma {:induction false} AccumulateConcat(queries: seq<string>, c1: seq<ToolCall>, c2: seq<ToolCall>)
    ensures Accumulate(queries, c1 + c2) == Accumulate(Accumulate(queries, c1), c2)
    decreases |c2|
  {
    if |c2| == 0 {
      assert c1 + c2 == c1;
    } else {
      var init, last := c2[..|c2| - 1], c2[|c2| - 1];
      assert (c1 + c2)[..|c1 + c2| - 1] == c1 + init;
      assert (c1 + c2)[|c1 + c2| - 1] == last;
      AccumulateConcat(queries, c1, init);
    }
  }

  /** The position of the first call that tracks `x`, or `|calls|` when none does. */
  function FirstTracked(calls: seq<ToolCall>, x: string): (k: nat)
    ensures k <= |calls|
    ensures k < |calls| ==> Trackable(calls[k]) && calls[k].query == x
    ensures forall j :: 0 <= j < k ==> !(Trackable(calls[j]) && calls[j].query == x)
    ensures k == |calls| <==> x !in TrackedQueries(calls)
    decreases |calls|
  {
    if |calls| == 0 then 0
    else
      var init, last := calls[..|calls| - 1], calls[|calls| - 1];
      assert calls == init + [last];
      TrackedQueriesSnoc(init, last);
      var k := FirstTracked(init, x);
      if k < |init| then k
      else if Trackable(last) && last.query == x then |init|
      else |calls|
  }

  /** Every query the fold appends is new to the incoming list and is tracked by some call. */
  lemma {:induction false} AppendedAreNew(queries: seq<string>, calls: seq<ToolCall>)
    ensures forall i :: |queries| <= i < |Accumulate(queries, calls)| ==>
      && Accumulate(queries, calls)[i] !in queries
      && FirstTracked(calls, Accumulate(queries, calls)[i]) < |calls|
    decreases |calls|
  {
    if |calls| > 0 {
      var init, last := calls[..|calls| - 1], calls[|calls| - 1];
      assert calls == init + [last];
      AppendedAreNew(queries, init);
      var r0 := Accumulate(queries, init);
      forall i | |queries| <= i < |r0|
        ensures FirstTracked(calls, r0[i]) == FirstTracked(init, r0[i])
      {
        assert FirstTracked(init, r0[i]) < |init|;
      }
    }
  }

  /** The queries the fold appends appear in the order in which a call first tracked them.
      With `AppendedAreNew` and the membership clause of `Accumulate`, this determines the
      result completely. */
  lemma {:induction false} AppendedInFirstSeenOrder(queries: seq<string>, calls: seq<ToolCall>)
    ensures forall i, j :: |queries| <= i < j < |Accumulate(queries, calls)| ==>
      FirstTracked(calls, Accumulate(queries, calls)[i]) < FirstTracked(calls, Accumulate(queries, calls)[j])
    decreases |calls|
  {
    if |calls| > 0 {
      var init, last := calls[..|calls| - 1], calls[|calls| - 1];
      assert calls == init + [last];
      AppendedInFirstSeenOrder(queries, init);
      AppendedAreNew(queries, init);
      var r0 := Accumulate(queries, init);
      var r := Accumulate(queries, calls);
      forall i | |queries| <= i < |r0|
        ensures FirstTracked(calls, r0[i]) == FirstTracked(init, r0[i]) < |init|
      {
        assert FirstTracked(init, r0[i]) < |init|;
      }
      if Trackable(last) && last.query !in r0 {
        assert FirstTracked(init, last.query) == |init|;
        assert FirstTracked(calls, last.query) == |init|;
        assert r == r0 + [last.query];
      }
    }
  }

  /** The calls a response carries; a response without the attribute carries none. */
  function CallsOf(response: Message): seq<ToolCall>
  {
    response.toolCalls.GetOr([])
  }

  /** Two node runs in a row, the second on the state the first produced, record exactly
      what one fold over both responses' calls records: no query is lost, reordered or
      listed twice across turns. */
  lemma ChatNodeAcrossTurns(s1: ChatState, r1: Message, s2: ChatState, r2: Message)
    requires s2.sqlQueries == Some(ChatNode(s1, r1).sqlQueries)
    ensures ChatNode(s2, r2).sqlQueries
         == Accumulate(s1.sqlQueries.GetOr([]), CallsOf(r1) + CallsOf(r2))
    ensures ChatNode(s1, r1).sqlQueries <= ChatNode(s2, r2).sqlQueries
  {
    var q := s1.sqlQueries.GetOr([]);
    assert ChatNode(s1, r1).sqlQueries == Accumulate(q, CallsOf(r1));
    assert ChatNode(s2, r2).sqlQueries == Accumulate(Accumulate(q, CallsOf(r1)), CallsOf(r2));
    AccumulateConcat(q, CallsOf(r1), CallsOf(r2));
  }
}
