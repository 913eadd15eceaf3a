/**
  The viewer sink (`createViewerOutput`): every call of the `Output` interface
  becomes at most one message envelope handed to the caller's `postMessage`.
  The transport is modelled by `MessagePort`, which records what was posted.
*/
module ViewerSink {
  import opened Types

  /** The tag every envelope carries. */
  const Source: string := "bigquery-runner"

  datatype RowsPayload = RowsPayload(
    header: seq<string>,
    rows: seq<NumberedRows>,
    jobInfo: JobInfo,
    tableInfo: TableInfo,
    edgeInfo: SerializableEdgeInfo)

  /** The inner `{event, payload?}` record. */
  datatype Event = Event(event: string, payload: Option<RowsPayload>)

  /** The posted `{source, payload}` record. */
  datatype Envelope = Envelope(source: string, payload: Event)

  /** The column ids of the heads, in order. */
  function HeaderIds(heads: seq<Head>): (ids: seq<string>)
    ensures |ids| == |heads|
    ensures forall i :: 0 <= i < |heads| ==> ids[i] == heads[i].id
  {
    if heads == [] then [] else [heads[0].id] + HeaderIds(heads[1..])
  }

  /** The envelope `open` posts: event "open", no inner payload. */
  function OpenMessage(): (m: Envelope)
    ensures m.source == Source && m.payload.event == "open" && m.payload.payload.None?
  {
    Envelope(Source, Event("open", None))
  }

  /** The envelope `close` posts: event "close", no inner payload. */
  function CloseMessage(): (m: Envelope)
    ensures m.source == Source && m.payload.event == "close" && m.payload.payload.None?
  {
    Envelope(Source, Event("close", None))
  }

  /** The `rows` envelope for one `writeRows` call. */
  function RowsMessage(args: RowsArgs, serialize: EdgeSerializer): (m: Envelope)
    ensures m.source == Source && m.payload.event == "rows" && m.payload.payload.Some?
    ensures |m.payload.payload.value.header| == |args.flat.heads|
    ensures forall i :: 0 <= i < |args.flat.heads| ==>
              m.payload.payload.value.header[i] == args.flat.heads[i].id
    ensures m.payload.payload.value.rows == args.flat.toRows(args.structs, args.edgeInfo.rowNumberStart)
    ensures m.payload.payload.value.jobInfo == args.jobInfo
    ensures m.payload.payload.value.tableInfo == args.tableInfo
    ensures m.payload.payload.value.edgeInfo == serialize(args.edgeInfo)
  {
    var payload := RowsPayload(
      HeaderIds(args.flat.heads),
      args.flat.toRows(args.structs, args.edgeInfo.rowNumberStart),
      args.jobInfo,
      args.tableInfo,
      serialize(args.edgeInfo));
    Envelope(Source, Event("rows", Some(payload)))
  }

  /** The calls that post a message: `open`, `writeRows` and `close`. */
  predicate Posts(op: Op) {
    op.Open? || op.WriteRows? || op.Close?
  }

  /** The one envelope a posting call hands to `postMessage`. */
  function Message(op: Op, serialize: EdgeSerializer): (m: Envelope)
    requires Posts(op)
    ensures m.source == Source
    ensures m.payload.event == (if op.Open? then "open" else if op.Close? then "close" else "rows")
    ensures m.payload.payload.Some? <==> op.WriteRows?
    ensures op.WriteRows? ==> m == RowsMessage(op.args, serialize)
  {
    match op
    case Open => OpenMessage()
    case WriteRows(args) => RowsMessage(args, serialize)
    case Close => CloseMessage()
  }

  /** What one call posts. */
  function ViewerPosts(op: Op, serialize: EdgeSerializer): (posted: seq<Envelope>)
    ensures |posted| <= 1
    ensures posted != [] <==> Posts(op)
    ensures forall m :: m in posted ==> m.source == Source && (m.payload.payload.Some? <==> op.WriteRows?)
  {
    if Posts(op) then [Message(op, serialize)] else []
  }

  /** What a sequence of calls posts, in order. */
  function ViewerTrace(ops: seq<Op>, serialize: EdgeSerializer): (posted: seq<Envelope>)
    ensures |posted| <= |ops|
    ensures forall m :: m in posted ==> m.source == Source
  {
    if ops == [] then [] else ViewerPosts(ops[0], serialize) + ViewerTrace(ops[1..], serialize)
  }

  /**
    The posting calls of a sequence, in order. `PostingCallsCounts` and
    `PostingCallsConcat` state that each is kept as often as it occurs and
    that the order of the calls is kept.
  */
  function PostingCalls(ops: seq<Op>): (calls: seq<Op>)
    ensures |calls| <= |ops|
    ensures forall i :: 0 <= i < |calls| ==> Posts(calls[i])
    ensures |ops| == 1 ==> calls == if Posts(ops[0]) then ops else []
  {
    if ops == [] then []
    else (if Posts(ops[0]) then [ops[0]] else []) + PostingCalls(ops[1..])
  }

  /** Each posting call is kept exactly as often as it occurs, and no other call is kept. */
  lemma {:induction false} PostingCallsCounts(ops: seq<Op>)
    ensures forall op :: multiset(PostingCalls(ops))[op] == if Posts(op) then multiset(ops)[op] else 0
  {
    if ops != [] {
      PostingCallsCounts(ops[1..]);
      assert ops == [ops[0]] + ops[1..];
      assert multiset(ops) == multiset{ops[0]} + multiset(ops[1..]);
      var head := if Posts(ops[0]) then [ops[0]] else [];
      assert multiset(PostingCalls(ops)) == multiset(head) + multiset(PostingCalls(ops[1..]));
    }
  }

  /** Filtering a concatenation is concatenating the filtered parts, so the order of calls is kept. */
  lemma {:induction false} PostingCallsConcat(a: seq<Op>, b: seq<Op>)
    ensures PostingCalls(a + b) == PostingCalls(a) + PostingCalls(b)
  {
    if a == [] {
      assert a + b == b;
    } else {
      var head := if Posts(a[0]) then [a[0]] else [];
      assert (a + b)[0] == a[0] && (a + b)[1..] == a[1..] + b;
      assert PostingCalls(a + b) == head + PostingCalls(a[1..] + b);
      assert PostingCalls(a) == head + PostingCalls(a[1..]);
      PostingCallsConcat(a[1..], b);
      assert head + (PostingCalls(a[1..]) + PostingCalls(b)) == head + PostingCalls(a[1..]) + PostingCalls(b);
    }
  }

  /** Calls made one after the other post one after the other. */
  lemma {:induction false} ViewerTraceConcat(a: seq<Op>, b: seq<Op>, serialize: EdgeSerializer)
    ensures ViewerTrace(a + b, serialize) == ViewerTrace(a, serialize) + ViewerTrace(b, serialize)
  {
    if a == [] {
      assert a + b == b;
    } else {
      assert (a + b)[0] == a[0] && (a + b)[1..] == a[1..] + b;
      ViewerTraceConcat(a[1..], b, serialize);
    }
  }

  /**
    Exactly one envelope per `open`, `writeRows` and `close` call, in call
    order, and nothing for `writeHeads` and `dispose`.
  */
  lemma {:induction false} ViewerTraceIsPostingCalls(ops: seq<Op>, serialize: EdgeSerializer)
    ensures |ViewerTrace(ops, serialize)| == |PostingCalls(ops)|
    ensures forall i :: 0 <= i < |PostingCalls(ops)| ==>
              ViewerTrace(ops, serialize)[i] == Message(PostingCalls(ops)[i], serialize)
  {
    if ops != [] {
      ViewerTraceIsPostingCalls(ops[1..], serialize);
    }
  }

  /**
    Every envelope is tagged "bigquery-runner", its event is one of "open",
    "rows" and "close", and it has an inner payload exactly when it is "rows".
  */
  lemma {:induction false} ViewerTraceShape(ops: seq<Op>, serialize: EdgeSerializer)
    ensures forall m :: m in ViewerTrace(ops, serialize) ==>
              m.source == Source &&
              m.payload.event in ["open", "rows", "close"] &&
              (m.payload.payload.Some? <==> m.payload.event == "rows")
  {
    var trace := ViewerTrace(ops, serialize);
    ViewerTraceIsPostingCalls(ops, serialize);
    forall m | m in trace
      ensures m.source == Source && m.payload.event in ["open", "rows", "close"]
      ensures m.payload.payload.Some? <==> m.payload.event == "rows"
    {
      var i :| 0 <= i < |trace| && trace[i] == m;
      var op := PostingCalls(ops)[i];
      assert m == Message(op, serialize);
    }
  }

  /** Calls that post nothing leave no trace, however many there are. */
  lemma {:induction false} QuietCallsPostNothing(quiet: seq<Op>, serialize: EdgeSerializer)
    requires forall i :: 0 <= i < |quiet| ==> !Posts(quiet[i])
    ensures ViewerTrace(quiet, serialize) == []
  {
    if quiet != [] {
      QuietCallsPostNothing(quiet[1..], serialize);
    }
  }

  /**
    `open`, any number of `writeHeads`/`dispose` calls, then `close` post
    exactly an "open" and a "close" envelope and no "rows" envelope.
  */
  lemma OpenThenClose(quiet: seq<Op>, serialize: EdgeSerializer)
    requires forall i :: 0 <= i < |quiet| ==> !Posts(quiet[i])
    ensures ViewerTrace([Op.Open] + quiet + [Op.Close], serialize) == [OpenMessage(), CloseMessage()]
  {
    var started := [Op.Open] + quiet;
    ViewerTraceConcat(started, [Op.Close], serialize);
    ViewerTraceConcat([Op.Open], quiet, serialize);
    QuietCallsPostNothing(quiet, serialize);
    assert ViewerTrace([Op.Open], serialize) == [OpenMessage()] by {
      assert [Op.Open][1..] == [];
    }
    assert ViewerTrace([Op.Close], serialize) == [CloseMessage()] by {
      assert [Op.Close][1..] == [];
    }
    assert ViewerTrace(started, serialize) == [OpenMessage()];
  }

  /**
    `dispose` tears nothing down: the calls after it post exactly what they
    would have posted without it.
  */
  lemma DisposeChangesNothing(before: seq<Op>, after: seq<Op>, serialize: EdgeSerializer)
    ensures ViewerTrace(before + [Op.Dispose] + after, serialize)
         == ViewerTrace(before, serialize) + ViewerTrace(after, serialize)
  {
    ViewerTraceConcat(before + [Op.Dispose], after, serialize);
    ViewerTraceConcat(before, [Op.Dispose], serialize);
    assert ViewerTrace([Op.Dispose], serialize) == [] by {
      assert [Op.Dispose][1..] == [];
    }
    assert ViewerTrace(before, serialize) + [] == ViewerTrace(before, serialize);
  }

  /** The caller-supplied `postMessage`, recording every envelope it receives. */
  class MessagePort {
    var posted: seq<Envelope>

    constructor ()
      ensures posted == []
    {
      posted := [];
    }

    method PostMessage(message: Envelope)
      modifies this
      ensures posted == old(posted) + [message]
    {
      posted := posted + [message];
    }
  }

  /** The sink `createViewerOutput({postMessage})` returns. It keeps no state of its own. */
  class ViewerOutput {
    const port: MessagePort
    const serialize: EdgeSerializer

    constructor (port: MessagePort, serialize: EdgeSerializer)
      ensures this.port == port && this.serialize == serialize
    {
      this.port := port;
      this.serialize := serialize;
    }

    method Open()
      modifies port
      ensures port.posted == old(port.posted) + [OpenMessage()]
    {
      port.PostMessage(OpenMessage());
    }

    /** Posts nothing: the viewer takes its header from the "rows" event. */
    method WriteHeads(flat: Flat)
      ensures unchanged(port)
    {
    }

    method WriteRows(args: RowsArgs)
      modifies port
      ensures port.posted == old(port.posted) + [RowsMessage(args, serialize)]
    {
      port.PostMessage(RowsMessage(args, serialize));
    }

    method Close()
      modifies port
      ensures port.posted == old(port.posted) + [CloseMessage()]
    {
      port.PostMessage(CloseMessage());
    }

    /** Posts nothing: the message channel has no teardown. */
    method Dispose()
      ensures unchanged(port)
    {
    }

    /** Any call of the `Output` interface, in any state. */
    method Perform(op: Op)
      modifies port
      ensures port.posted == old(port.posted) + ViewerPosts(op, serialize)
    {
      match op
      case Open => Open();
      case WriteHeads(flat) => WriteHeads(flat);
      case WriteRows(args) => WriteRows(args);
      case Close => Close();
      case Dispose => Dispose();
    }

    /** Calls issued one after another, in any order: the port receives their trace. */
    method Run(ops: seq<Op>)
      modifies port
      ensures port.posted == old(port.posted) + ViewerTrace(ops, serialize)
    {
      var i := 0;
      while i < |ops|
        invariant 0 <= i <= |ops|
        invariant port.posted == old(port.posted) + ViewerTrace(ops[..i], serialize)
      {
        Perform(ops[i]);
        ViewerTraceConcat(ops[..i], [ops[i]], serialize);
        assert ops[..i + 1] == ops[..i] + [ops[i]];
        assert ViewerTrace([ops[i]], serialize) == ViewerPosts(ops[i], serialize) by {
          assert [ops[i]][1..] == [];
        }
        i := i + 1;
      }
      assert ops[..i] == ops;
    }
  }

  /** `open` then `close` on a fresh sink posts exactly the "open" and "close" envelopes. */
  method OpenCloseScenario(serialize: EdgeSerializer) returns (posted: seq<Envelope>)
    ensures posted == [OpenMessage(), CloseMessage()]
    ensures posted[1] == Envelope("bigquery-runner", Event("close", None))
  {
    var port := new MessagePort();
    var output := new ViewerOutput(port, serialize);
    output.Open();
    output.Close();
    posted := port.posted;
  }

  /** `writeRows`, `close` and `dispose` are all accepted by a sink that was never opened. */
  method BeforeOpenScenario(args: RowsArgs, serialize: EdgeSerializer) returns (posted: seq<Envelope>)
    ensures posted == [RowsMessage(args, serialize), CloseMessage()]
  {
    var port := new MessagePort();
    var output := new ViewerOutput(port, serialize);
    output.WriteRows(args);
    output.Close();
    output.Dispose();
    posted := port.posted;
  }

  /**
    `open`, `writeHeads`, `writeRows` over a one-column flat "foo" with the
    page starting at row 1: an "open" envelope, then one "rows" envelope whose
    header is ["foo"], whose rows come from row number 1, and whose edge
    information is the serialized one.
  */
  method FormatScenario(
    toRows: (seq<Struct>, int) -> seq<NumberedRows>,
    structs: seq<Struct>,
    jobInfo: JobInfo,
    tableInfo: TableInfo,
    serialize: EdgeSerializer
  ) returns (posted: seq<Envelope>)
    ensures |posted| == 2 && posted[0] == OpenMessage()
    ensures posted[1].source == Source && posted[1].payload.event == "rows"
    ensures posted[1].payload.payload ==
              Some(RowsPayload(["foo"], toRows(structs, 1), jobInfo, tableInfo,
                               serialize(EdgeInfo(false, false, 1, 1))))
  {
    var flat := Flat([Head("foo")], toRows);
    var edgeInfo := EdgeInfo(false, false, 1, 1);
    var port := new MessagePort();
    var output := new ViewerOutput(port, serialize);
    output.Open();
    output.WriteHeads(flat);
    output.WriteRows(RowsArgs(structs, flat, jobInfo, tableInfo, edgeInfo));
    posted := port.posted;
    assert HeaderIds(flat.heads) == ["foo"];
  }
}
