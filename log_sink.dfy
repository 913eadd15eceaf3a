/**
  The log sink (`createLogOutput`): formatter text appended to an append-only
  output channel. The channel is modelled by `OutputChannel`, which records the
  appended chunks and the arguments of every `show` call.
*/
module LogSink {
  import opened Types

  /** The text of a sequence of appended chunks. */
  function Concat(chunks: seq<string>): string {
    if chunks == [] then "" else chunks[0] + Concat(chunks[1..])
  }

  lemma {:induction false} ConcatAppend(a: seq<string>, b: seq<string>)
    ensures Concat(a + b) == Concat(a) + Concat(b)
  {
    if a == [] {
      assert a + b == b;
    } else {
      assert (a + b)[0] == a[0] && (a + b)[1..] == a[1..] + b;
      ConcatAppend(a[1..], b);
    }
  }

  lemma ConcatThree(a: string, b: string, c: string)
    ensures Concat([a, b, c]) == a + b + c
  {
    assert [c][1..] == [];
    assert Concat([c]) == c by {
      assert c + "" == c;
    }
    assert [b, c][1..] == [c];
    assert [a, b, c][1..] == [b, c];
    assert a + (b + c) == a + b + c;
  }

  /** The predicate of the calls that append: everything but `open` and `dispose`. */
  predicate Appends(op: Op) {
    !op.Open? && !op.Dispose?
  }

  /**
    The chunks one call appends to the channel: one chunk for each appending
    call, none otherwise; rows are always rendered from row number 0.
  */
  function LogAppends(op: Op, formatter: Formatter): (appended: seq<string>)
    ensures |appended| == if Appends(op) then 1 else 0
    ensures op.WriteRows? ==> appended == [formatter.rows(op.args.structs, 0, op.args.flat)]
  {
    match op
    case Open => []
    case WriteHeads(flat) => [formatter.header(flat)]
    case WriteRows(args) => [formatter.rows(args.structs, 0, args.flat)]
    case Close => [formatter.footer()]
    case Dispose => []
  }

  /** The `show` calls one call makes on the channel: one for `open`, keeping the focus. */
  function LogShows(op: Op): (shows: seq<bool>)
    ensures shows != [] <==> op.Open?
    ensures forall i :: 0 <= i < |shows| ==> shows[i]
  {
    if op.Open? then [true] else []
  }

  /** The chunks a sequence of calls appends, in order: at most one per call. */
  function LogTrace(ops: seq<Op>, formatter: Formatter): (appended: seq<string>)
    ensures |appended| <= |ops|
  {
    if ops == [] then [] else LogAppends(ops[0], formatter) + LogTrace(ops[1..], formatter)
  }

  /** The `show` calls a sequence of calls makes, in order: at most one per call, each keeping the focus. */
  function ShowTrace(ops: seq<Op>): (shows: seq<bool>)
    ensures |shows| <= |ops|
    ensures forall i :: 0 <= i < |shows| ==> shows[i]
  {
    if ops == [] then [] else LogShows(ops[0]) + ShowTrace(ops[1..])
  }

  lemma {:induction false} LogTraceConcat(a: seq<Op>, b: seq<Op>, formatter: Formatter)
    ensures LogTrace(a + b, formatter) == LogTrace(a, formatter) + LogTrace(b, formatter)
  {
    if a == [] {
      assert a + b == b;
    } else {
      assert (a + b)[0] == a[0] && (a + b)[1..] == a[1..] + b;
      LogTraceConcat(a[1..], b, formatter);
    }
  }

  lemma {:induction false} ShowTraceConcat(a: seq<Op>, b: seq<Op>)
    ensures ShowTrace(a + b) == ShowTrace(a) + ShowTrace(b)
  {
    if a == [] {
      assert a + b == b;
    } else {
      assert (a + b)[0] == a[0] && (a + b)[1..] == a[1..] + b;
      ShowTraceConcat(a[1..], b);
    }
  }

  /** Extending a prefix of the calls by the next call extends both traces by that call's effect. */
  lemma TraceStep(ops: seq<Op>, i: nat, formatter: Formatter)
    requires i < |ops|
    ensures LogTrace(ops[..i + 1], formatter) == LogTrace(ops[..i], formatter) + LogAppends(ops[i], formatter)
    ensures ShowTrace(ops[..i + 1]) == ShowTrace(ops[..i]) + LogShows(ops[i])
  {
    assert ops[..i + 1] == ops[..i] + [ops[i]];
    assert [ops[i]][1..] == [];
    assert LogTrace([ops[i]], formatter) == LogAppends(ops[i], formatter) + [];
    assert ShowTrace([ops[i]]) == LogShows(ops[i]) + [];
    LogTraceConcat(ops[..i], [ops[i]], formatter);
    ShowTraceConcat(ops[..i], [ops[i]]);
  }

  /**
    `dispose` leaves the channel usable: the calls after it append and show
    exactly what they would have without it.
  */
  lemma DisposeChangesNothing(before: seq<Op>, after: seq<Op>, formatter: Formatter)
    ensures LogTrace(before + [Op.Dispose] + after, formatter)
         == LogTrace(before, formatter) + LogTrace(after, formatter)
    ensures ShowTrace(before + [Op.Dispose] + after) == ShowTrace(before) + ShowTrace(after)
  {
    var disposed := before + [Op.Dispose];
    assert [Op.Dispose][1..] == [];
    var quiet := LogTrace([Op.Dispose], formatter);
    assert quiet == [];
    LogTraceConcat(before, [Op.Dispose], formatter);
    assert LogTrace(disposed, formatter) == LogTrace(before, formatter);
    LogTraceConcat(disposed, after, formatter);
    assert ShowTrace([Op.Dispose]) == [];
    ShowTraceConcat(before, [Op.Dispose]);
    assert ShowTrace(disposed) == ShowTrace(before);
    ShowTraceConcat(disposed, after);
  }

  /** The channel text after two runs of calls is the text of the first followed by that of the second. */
  lemma LogTextConcat(a: seq<Op>, b: seq<Op>, formatter: Formatter)
    ensures Concat(LogTrace(a + b, formatter))
         == Concat(LogTrace(a, formatter)) + Concat(LogTrace(b, formatter))
  {
    LogTraceConcat(a, b, formatter);
    ConcatAppend(LogTrace(a, formatter), LogTrace(b, formatter));
  }

  /** `open; writeHeads; writeRows; close` leaves header, rows (from row 0) and footer, in that order. */
  lemma LogSessionText(formatter: Formatter, flat: Flat, args: RowsArgs)
    ensures Concat(LogTrace([Op.Open, Op.WriteHeads(flat), Op.WriteRows(args), Op.Close], formatter))
         == formatter.header(flat) + formatter.rows(args.structs, 0, args.flat) + formatter.footer()
    ensures ShowTrace([Op.Open, Op.WriteHeads(flat), Op.WriteRows(args), Op.Close]) == [true]
  {
    var ops := [Op.Open, Op.WriteHeads(flat), Op.WriteRows(args), Op.Close];
    var header, rows, footer :=
      formatter.header(flat), formatter.rows(args.structs, 0, args.flat), formatter.footer();
    assert ops[1..] == [Op.WriteHeads(flat), Op.WriteRows(args), Op.Close];
    assert ops[2..] == [Op.WriteRows(args), Op.Close];
    assert ops[3..] == [Op.Close];
    assert LogTrace(ops[3..], formatter) == [footer] && ShowTrace(ops[3..]) == [];
    assert LogTrace(ops[2..], formatter) == [rows, footer] && ShowTrace(ops[2..]) == [] by {
      assert ops[2..][1..] == ops[3..];
    }
    assert LogTrace(ops[1..], formatter) == [header, rows, footer] && ShowTrace(ops[1..]) == [] by {
      assert ops[1..][1..] == ops[2..];
    }
    assert LogTrace(ops, formatter) == [header, rows, footer];
    ConcatThree(header, rows, footer);
  }

  /** `open` and `dispose` calls, anywhere and any number of them, append nothing. */
  lemma {:induction false} QuietCallsAppendNothing(quiet: seq<Op>, formatter: Formatter)
    requires forall i :: 0 <= i < |quiet| ==> !Appends(quiet[i])
    ensures LogTrace(quiet, formatter) == []
  {
    if quiet != [] {
      QuietCallsAppendNothing(quiet[1..], formatter);
    }
  }

  /**
    The channel text depends on nothing a formatter cannot see: `writeRows`
    always renders from row number 0, and the job, table and page information
    are ignored.
  */
  lemma {:induction false} LogIgnoresPageInfo(ops1: seq<Op>, ops2: seq<Op>, formatter: Formatter)
    requires |ops1| == |ops2|
    requires forall i :: 0 <= i < |ops1| ==> SameForFormatter(ops1[i], ops2[i])
    ensures LogTrace(ops1, formatter) == LogTrace(ops2, formatter)
  {
    if ops1 != [] {
      assert SameForFormatter(ops1[0], ops2[0]);
      LogIgnoresPageInfo(ops1[1..], ops2[1..], formatter);
    }
  }

  /** The `outputChannel` the sink is given. */
  class OutputChannel {
    var appended: seq<string>
    var shown: seq<bool>

    constructor ()
      ensures appended == [] && shown == []
    {
      appended := [];
      shown := [];
    }

    /** What a reader of the channel sees. */
    function Text(): string
      reads this
    {
      Concat(appended)
    }

    method Show(preserveFocus: bool)
      modifies this
      ensures shown == old(shown) + [preserveFocus] && appended == old(appended)
    {
      shown := shown + [preserveFocus];
    }

    method Append(value: string)
      modifies this
      ensures appended == old(appended) + [value] && shown == old(shown)
      ensures Text() == old(Text()) + value
    {
      ConcatAppend(appended, [value]);
      appended := appended + [value];
    }
  }

  /** The sink `createLogOutput({formatter, outputChannel})` returns. It keeps no state of its own. */
  class LogOutput {
    const formatter: Formatter
    const channel: OutputChannel

    constructor (formatter: Formatter, channel: OutputChannel)
      ensures this.formatter == formatter && this.channel == channel
    {
      this.formatter := formatter;
      this.channel := channel;
    }

    /** Reveals the channel, keeping the focus where it is; appends nothing. */
    method Open()
      modifies channel
      ensures channel.shown == old(channel.shown) + [true]
      ensures channel.appended == old(channel.appended)
    {
      channel.Show(true);
    }

    method WriteHeads(flat: Flat)
      modifies channel
      ensures channel.appended == old(channel.appended) + [formatter.header(flat)]
      ensures channel.shown == old(channel.shown)
    {
      channel.Append(formatter.header(flat));
    }

    /** Renders from row number 0 whatever page the rows belong to. */
    method WriteRows(args: RowsArgs)
      modifies channel
      ensures channel.appended == old(channel.appended) + [formatter.rows(args.structs, 0, args.flat)]
      ensures channel.shown == old(channel.shown)
    {
      var text := formatter.rows(args.structs, 0, args.flat);
      channel.Append(text);
    }

    method Close()
      modifies channel
      ensures channel.appended == old(channel.appended) + [formatter.footer()]
      ensures channel.shown == old(channel.shown)
    {
      channel.Append(formatter.footer());
    }

    /** Leaves the channel as it is. */
    method Dispose()
      ensures unchanged(channel)
    {
    }

    /** Any call of the `Output` interface, in any state. */
    method Perform(op: Op)
      modifies channel
      ensures channel.appended == old(channel.appended) + LogAppends(op, formatter)
      ensures channel.shown == old(channel.shown) + LogShows(op)
    {
      match op
      case Open => Open();
      case WriteHeads(flat) => WriteHeads(flat);
      case WriteRows(args) => WriteRows(args);
      case Close => Close();
      case Dispose => Dispose();
    }

    /** A sequence of calls, in order: the channel receives exactly their trace. */
    method Run(ops: seq<Op>)
      modifies channel
      ensures channel.appended == old(channel.appended) + LogTrace(ops, formatter)
      ensures channel.shown == old(channel.shown) + ShowTrace(ops)
    {
      var i := 0;
      while i < |ops|
        invariant 0 <= i <= |ops|
        invariant channel.appended == old(channel.appended) + LogTrace(ops[..i], formatter)
        invariant channel.shown == old(channel.shown) + ShowTrace(ops[..i])
      {
        Perform(ops[i]);
        TraceStep(ops, i, formatter);
        i := i + 1;
      }
      assert ops[..i] == ops;
    }
  }

  /**
    One full session on a fresh channel: the channel text is the header, the
    rows rendered from row 0 and the footer, and the channel was shown once,
    keeping the focus.
  */
  method SessionScenario(
    formatter: Formatter,
    flat: Flat,
    structs: seq<Struct>,
    jobInfo: JobInfo,
    tableInfo: TableInfo,
    edgeInfo: EdgeInfo
  ) returns (text: string, shown: seq<bool>)
    ensures text == formatter.header(flat) + formatter.rows(structs, 0, flat) + formatter.footer()
    ensures shown == [true]
  {
    var channel := new OutputChannel();
    var output := new LogOutput(formatter, channel);
    output.Open();
    output.WriteHeads(flat);
    output.WriteRows(RowsArgs(structs, flat, jobInfo, tableInfo, edgeInfo));
    output.Close();
    output.Dispose();
    assert channel.appended == [formatter.header(flat), formatter.rows(structs, 0, flat), formatter.footer()];
    text := channel.Text();
    shown := channel.shown;
    ConcatThree(formatter.header(flat), formatter.rows(structs, 0, flat), formatter.footer());
  }
}
