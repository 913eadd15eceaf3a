/**
  The file sink (`createFileOutput`): formatter text written to a writable
  stream, which `close` and `dispose` end. The stream is modelled by
  `WritableStream`: a chunk written after the end is not delivered and the
  stream reports a write-after-end error instead; ending an ended stream
  changes nothing. The sink itself never checks whether the stream has ended.
*/
module FileSink {
  import opened Types

  /** What the stream's consumer can observe. */
  datatype StreamState = StreamState(written: seq<string>, ended: bool, writeAfterEnd: bool)

  const FreshStream: StreamState := StreamState([], false, false)

  /** `stream.write(chunk)`: delivered while the stream is open, an error once it has ended. */
  function AfterWrite(s: StreamState, chunk: string): (r: StreamState)
    ensures r.written == if s.ended then s.written else s.written + [chunk]
    ensures r.ended == s.ended
    ensures r.writeAfterEnd == (s.writeAfterEnd || s.ended)
  {
    if s.ended then s.(writeAfterEnd := true) else s.(written := s.written + [chunk])
  }

  /** `stream.end()`: it neither delivers nor reports anything. */
  function AfterEnd(s: StreamState): (r: StreamState)
    ensures r.ended && r.written == s.written && r.writeAfterEnd == s.writeAfterEnd
  {
    s.(ended := true)
  }

  /** The calls that end the stream. */
  predicate Ends(op: Op) {
    op.Close? || op.Dispose?
  }

  /** The calls that write to the stream: `writeHeads` only when the header is not empty. */
  predicate Writes(op: Op, formatter: Formatter) {
    op.WriteRows? || op.Close? || (op.WriteHeads? && formatter.header(op.flat) != "")
  }

  /**
    The effect of one call on the stream: it keeps what was delivered and adds
    at most one chunk, which only a writing call on an open stream adds; it
    ends the stream when it is a `close` or a `dispose`; and it reports a
    write after the end exactly when it writes to an ended stream.
  */
  function FileStep(s: StreamState, op: Op, formatter: Formatter): (r: StreamState)
    ensures s.written <= r.written && |r.written| <= |s.written| + 1
    ensures |r.written| == |s.written| + 1 <==> !s.ended && Writes(op, formatter)
    ensures r.ended == (s.ended || Ends(op))
    ensures r.writeAfterEnd == (s.writeAfterEnd || (s.ended && Writes(op, formatter)))
  {
    match op
    case Open => s
    case WriteHeads(flat) =>
      var header := formatter.header(flat);
      if header != "" then AfterWrite(s, header) else s
    case WriteRows(args) => AfterWrite(s, formatter.rows(args.structs, 0, args.flat))
    case Close => AfterEnd(AfterWrite(s, formatter.footer()))
    case Dispose => AfterEnd(s)
  }

  /**
    The effect of a sequence of calls, in order: what was delivered stays
    delivered, at most one chunk per call is added, and neither the end nor a
    reported write after the end is ever undone.
  */
  function FileRun(s: StreamState, ops: seq<Op>, formatter: Formatter): (r: StreamState)
    ensures s.written <= r.written && |r.written| <= |s.written| + |ops|
    ensures s.ended ==> r.ended
    ensures s.writeAfterEnd ==> r.writeAfterEnd
    decreases ops
  {
    if ops == [] then s else FileRun(FileStep(s, ops[0], formatter), ops[1..], formatter)
  }

  lemma {:induction false} FileRunConcat(s: StreamState, a: seq<Op>, b: seq<Op>, formatter: Formatter)
    ensures FileRun(s, a + b, formatter) == FileRun(FileRun(s, a, formatter), b, formatter)
    decreases a
  {
    if a == [] {
      assert a + b == b;
    } else {
      assert (a + b)[0] == a[0] && (a + b)[1..] == a[1..] + b;
      FileRunConcat(FileStep(s, a[0], formatter), a[1..], b, formatter);
    }
  }

  /** Once the stream has ended, no call delivers anything more and the stream stays ended. */
  lemma {:induction false} NothingWrittenAfterEnd(s: StreamState, ops: seq<Op>, formatter: Formatter)
    requires s.ended
    ensures FileRun(s, ops, formatter).written == s.written
    ensures FileRun(s, ops, formatter).ended
    decreases ops
  {
    if ops != [] {
      NothingWrittenAfterEnd(FileStep(s, ops[0], formatter), ops[1..], formatter);
    }
  }

  /** Extending a prefix of the calls by the next call applies that call to the state the prefix left. */
  lemma RunStep(s: StreamState, ops: seq<Op>, i: nat, formatter: Formatter)
    requires i < |ops|
    ensures FileRun(s, ops[..i + 1], formatter) == FileStep(FileRun(s, ops[..i], formatter), ops[i], formatter)
  {
    assert ops[..i + 1] == ops[..i] + [ops[i]];
    assert [ops[i]][1..] == [];
    FileRunConcat(s, ops[..i], [ops[i]], formatter);
  }

  /** After a `dispose`, whatever is called next, the stream holds what it held before the `dispose`. */
  lemma DisposeThenAnything(s: StreamState, before: seq<Op>, after: seq<Op>, formatter: Formatter)
    ensures FileRun(s, before + [Op.Dispose] + after, formatter).written == FileRun(s, before, formatter).written
    ensures FileRun(s, before + [Op.Dispose] + after, formatter).ended
  {
    FileRunConcat(s, before + [Op.Dispose], after, formatter);
    FileRunConcat(s, before, [Op.Dispose], formatter);
    NothingWrittenAfterEnd(FileRun(s, before + [Op.Dispose], formatter), after, formatter);
  }

  /** The stream has ended exactly when it had already ended or some call was a `close` or a `dispose`. */
  lemma {:induction false} EndedIff(s: StreamState, ops: seq<Op>, formatter: Formatter)
    ensures FileRun(s, ops, formatter).ended <==>
              s.ended || exists i :: 0 <= i < |ops| && Ends(ops[i])
    decreases ops
  {
    if ops != [] {
      var next := FileStep(s, ops[0], formatter);
      EndedIff(next, ops[1..], formatter);
      assert next.ended == (s.ended || Ends(ops[0]));
      if exists i :: 0 <= i < |ops| && Ends(ops[i]) {
        var i :| 0 <= i < |ops| && Ends(ops[i]);
        if i > 0 {
          assert Ends(ops[1..][i - 1]);
        }
      }
      if exists j :: 0 <= j < |ops[1..]| && Ends(ops[1..][j]) {
        var j :| 0 <= j < |ops[1..]| && Ends(ops[1..][j]);
        assert Ends(ops[j + 1]);
      }
    }
  }

  /**
    `close` after `dispose` is an error on the stream: the footer is not
    delivered and the stream reports a write after the end.
  */
  lemma CloseAfterDispose(s: StreamState, before: seq<Op>, formatter: Formatter)
    ensures FileRun(s, before + [Op.Dispose, Op.Close], formatter).writeAfterEnd
    ensures FileRun(s, before + [Op.Dispose, Op.Close], formatter).written == FileRun(s, before, formatter).written
  {
    var mid := FileRun(s, before, formatter);
    FileRunConcat(s, before, [Op.Dispose, Op.Close], formatter);
    var disposed := FileStep(mid, Op.Dispose, formatter);
    assert [Op.Dispose, Op.Close][1..] == [Op.Close] && [Op.Close][1..] == [];
    assert FileRun(mid, [Op.Dispose, Op.Close], formatter) == FileRun(disposed, [Op.Close], formatter);
    assert FileRun(disposed, [Op.Close], formatter) == FileStep(disposed, Op.Close, formatter);
  }

  /** Any number of `dispose` calls act as one, and none of them writes. */
  lemma {:induction false} RepeatedDispose(s: StreamState, n: nat, formatter: Formatter)
    ensures FileRun(s, seq(n, _ => Op.Dispose), formatter) == if n == 0 then s else AfterEnd(s)
    decreases n
  {
    if n > 0 {
      var ops := seq(n, _ => Op.Dispose);
      assert ops[1..] == seq(n - 1, _ => Op.Dispose);
      RepeatedDispose(AfterEnd(s), n - 1, formatter);
    }
  }

  /**
    `open; writeHeads; writeRows; close` on a fresh stream delivers the header
    when it is not empty, then the rows rendered from row 0, then the footer,
    and ends the stream without error.
  */
  lemma SessionWritten(formatter: Formatter, flat: Flat, args: RowsArgs)
    ensures var header := formatter.header(flat);
            FileRun(FreshStream, [Op.Open, Op.WriteHeads(flat), Op.WriteRows(args), Op.Close], formatter)
            == StreamState(
                 (if header != "" then [header] else []) +
                 [formatter.rows(args.structs, 0, args.flat), formatter.footer()],
                 true, false)
  {
    var ops := [Op.Open, Op.WriteHeads(flat), Op.WriteRows(args), Op.Close];
    var header, rows, footer :=
      formatter.header(flat), formatter.rows(args.structs, 0, args.flat), formatter.footer();
    var afterHeads := if header != "" then StreamState([header], false, false) else FreshStream;
    var afterRows := StreamState(afterHeads.written + [rows], false, false);
    var afterClose := StreamState(afterHeads.written + [rows, footer], true, false);
    assert FileStep(FreshStream, ops[0], formatter) == FreshStream;
    assert FileStep(FreshStream, ops[1], formatter) == afterHeads;
    assert FileStep(afterHeads, ops[2], formatter) == afterRows;
    assert FileStep(afterRows, ops[3], formatter) == afterClose;
    assert ops[1..][1..] == ops[2..] && ops[2..][1..] == ops[3..] && ops[3..][1..] == [];
    assert FileRun(afterRows, ops[3..], formatter) == afterClose;
    assert FileRun(afterHeads, ops[2..], formatter) == afterClose;
    assert FileRun(FreshStream, ops[1..], formatter) == afterClose;
  }

  /** The `stream` the sink is given. */
  class WritableStream {
    var written: seq<string>
    var ended: bool
    var writeAfterEnd: bool

    constructor ()
      ensures written == [] && !ended && !writeAfterEnd
    {
      written, ended, writeAfterEnd := [], false, false;
    }

    function State(): StreamState
      reads this
    {
      StreamState(written, ended, writeAfterEnd)
    }

    method Write(chunk: string)
      modifies this
      ensures written == if old(ended) then old(written) else old(written) + [chunk]
      ensures ended == old(ended)
      ensures writeAfterEnd == (old(writeAfterEnd) || old(ended))
    {
      if ended {
        writeAfterEnd := true;
      } else {
        written := written + [chunk];
      }
    }

    method End()
      modifies this
      ensures ended && written == old(written) && writeAfterEnd == old(writeAfterEnd)
    {
      ended := true;
    }
  }

  /** The sink `createFileOutput({formatter, stream})` returns. It keeps no state of its own. */
  class FileOutput {
    const formatter: Formatter
    const stream: WritableStream

    constructor (formatter: Formatter, stream: WritableStream)
      ensures this.formatter == formatter && this.stream == stream
    {
      this.formatter := formatter;
      this.stream := stream;
    }

    /** Does nothing. */
    method Open()
      ensures unchanged(stream)
    {
    }

    /** Writes the header only when it is not empty. */
    method WriteHeads(flat: Flat)
      modifies stream
      ensures var header := formatter.header(flat);
              stream.State() == if header != "" then AfterWrite(old(stream.State()), header) else old(stream.State())
    {
      var header := formatter.header(flat);
      if header != "" {
        stream.Write(header);
      }
    }

    /** Renders from row number 0 whatever page the rows belong to. */
    method WriteRows(args: RowsArgs)
      modifies stream
      ensures stream.State() == AfterWrite(old(stream.State()), formatter.rows(args.structs, 0, args.flat))
    {
      var text := formatter.rows(args.structs, 0, args.flat);
      stream.Write(text);
    }

    /** Writes the footer, then ends the stream. */
    method Close()
      modifies stream
      ensures stream.State() == AfterEnd(AfterWrite(old(stream.State()), formatter.footer()))
    {
      stream.Write(formatter.footer());
      stream.End();
    }

    /** Ends the stream without writing, whether or not `close` was called. */
    method Dispose()
      modifies stream
      ensures stream.State() == AfterEnd(old(stream.State()))
    {
      stream.End();
    }

    /** Any call of the `Output` interface, in any state. */
    method Perform(op: Op)
      modifies stream
      ensures stream.State() == FileStep(old(stream.State()), op, formatter)
    {
      match op
      case Open => Open();
      case WriteHeads(flat) => WriteHeads(flat);
      case WriteRows(args) => WriteRows(args);
      case Close => Close();
      case Dispose => Dispose();
    }

    /** A sequence of calls, in order: the stream ends up as their run prescribes. */
    method Run(ops: seq<Op>)
      modifies stream
      ensures stream.State() == FileRun(old(stream.State()), ops, formatter)
    {
      var i := 0;
      while i < |ops|
        invariant 0 <= i <= |ops|
        invariant stream.State() == FileRun(old(stream.State()), ops[..i], formatter)
      {
        Perform(ops[i]);
        RunStep(old(stream.State()), ops, i, formatter);
        i := i + 1;
      }
      assert ops[..i] == ops;
    }
  }

  /** `dispose` right after `open` ends a stream that `open` left open, and writes nothing. */
  method DisposeScenario(formatter: Formatter) returns (endedAfterOpen: bool, endedAfterDispose: bool, written: seq<string>)
    ensures !endedAfterOpen && endedAfterDispose && written == []
  {
    var stream := new WritableStream();
    var output := new FileOutput(formatter, stream);
    output.Open();
    endedAfterOpen := stream.ended;
    output.Dispose();
    endedAfterDispose := stream.ended;
    written := stream.written;
  }

  /**
    One full session on a fresh stream: the header when not empty, the rows
    from row 0 and the footer are delivered in that order, and the stream ends.
  */
  method SessionScenario(
    formatter: Formatter,
    flat: Flat,
    structs: seq<Struct>,
    jobInfo: JobInfo,
    tableInfo: TableInfo,
    edgeInfo: EdgeInfo
  ) returns (written: seq<string>, ended: bool)
    ensures var header := formatter.header(flat);
            written == (if header != "" then [header] else []) + [formatter.rows(structs, 0, flat), formatter.footer()]
    ensures ended
  {
    var stream := new WritableStream();
    var output := new FileOutput(formatter, stream);
    output.Open();
    output.WriteHeads(flat);
    output.WriteRows(RowsArgs(structs, flat, jobInfo, tableInfo, edgeInfo));
    output.Close();
    written := stream.written;
    ended := stream.ended;
  }
}
