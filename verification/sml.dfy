/**
 * The interface of the SML decoder (`sml_rs`) as far as the two read loops
 * use it. The decoder itself is not modelled: a run of the reader is given
 * as the sequence of results its successive `read::<File>()` calls return.
 */
module Sml {
  import opened Wrappers
  import opened Obis

  /** `sml_rs::parser::common::Value`; only `I64` is ever acted upon. */
  datatype Value =
    | Bool(flag: bool)
    | I8(i8: i8) | I16(i16: i16) | I32(i32: i32) | I64(i64: i64)
    | U8(u8: byte) | U16(u16: u16) | U32(u32: u32) | U64(u64: u64)
    | Bytes(octets: seq<byte>)
    | List(items: seq<Value>)

  /** One entry of a list response: object name, unit code and value. */
  datatype ListEntry = ListEntry(objName: seq<byte>, unit: Option<byte>, value: Value)

  /** The message kinds; only `GetListResponse` carries entries. */
  datatype MessageBody =
    | OpenResponse
    | GetListResponse(valList: seq<ListEntry>)
    | CloseResponse
    | OtherBody

  datatype Message = Message(messageBody: MessageBody)

  /** One decoded SML file (a transmission of several messages). */
  datatype File = File(messages: seq<Message>)

  /** The decoder's error classes: `ReadParsedError::IoErr` and all the others. */
  datatype ReadError = IoErr | ParseErr

  /** The result of one `reader.read::<File>()` call. */
  type ReadResult = Result<File, ReadError>

  predicate IsIoErr(r: ReadResult) {
    r.Err? && r.error.IoErr?
  }

  /**
   * How many results a read loop takes from the reader: everything up to and
   * including the first `IoErr`, or all of them when none comes.
   */
  function Consumed(results: seq<ReadResult>): (n: nat)
    ensures n <= |results|
    ensures forall k :: 0 <= k < n - 1 ==> !IsIoErr(results[k])
    ensures n < |results| ==> n > 0 && IsIoErr(results[n - 1])
  {
    if results == [] then 0
    else if IsIoErr(results[0]) then 1
    else 1 + Consumed(results[1..])
  }

  /** None of the results is an `IoErr`. */
  ghost predicate NoIoErr(results: seq<ReadResult>)
  {
    forall k :: 0 <= k < |results| ==> !IsIoErr(results[k])
  }

  /** Results read after a stretch without `IoErr` are consumed as if that stretch were not there. */
  lemma {:induction false} ConsumedAppend(a: seq<ReadResult>, b: seq<ReadResult>)
    requires NoIoErr(a)
    ensures Consumed(a + b) == |a| + Consumed(b)
  {
    if a != [] {
      assert (a + b)[1..] == a[1..] + b;
      ConsumedAppend(a[1..], b);
    } else {
      assert a + b == b;
    }
  }

  /**
   * The output of a loop that handles the elements of `xs` one after
   * another, each element's handling contributing `f(x)`.
   */
  function FlatMap<T, U>(f: T -> seq<U>, xs: seq<T>): seq<U>
  {
    if xs == [] then [] else FlatMap(f, xs[..|xs| - 1]) + f(xs[|xs| - 1])
  }

  /** Handling a sequence in two parts gives the two outputs one after the other. */
  lemma {:induction false} FlatMapAppend<T, U>(f: T -> seq<U>, a: seq<T>, b: seq<T>)
    ensures FlatMap(f, a + b) == FlatMap(f, a) + FlatMap(f, b)
  {
    if b != [] {
      var init := b[..|b| - 1];
      assert (a + b)[..|a + b| - 1] == a + init;
      FlatMapAppend(f, a, init);
    } else {
      assert a + b == a;
    }
  }

  /** Every output element comes from the handling of some input element. */
  lemma {:induction false} FlatMapSource<T, U>(f: T -> seq<U>, xs: seq<T>, y: U)
    requires y in FlatMap(f, xs)
    ensures exists k :: 0 <= k < |xs| && y in f(xs[k])
  {
    var init := xs[..|xs| - 1];
    if y !in f(xs[|xs| - 1]) {
      FlatMapSource(f, init, y);
      var k :| 0 <= k < |init| && y in f(init[k]);
      assert xs[k] == init[k];
    }
  }

  /** Extending the handled prefix by one element appends that element's output. */
  lemma FlatMapStep<T, U>(f: T -> seq<U>, xs: seq<T>, i: nat)
    requires i < |xs|
    ensures FlatMap(f, xs[..i + 1]) == FlatMap(f, xs[..i]) + f(xs[i])
  {
    assert xs[..i + 1][..i] == xs[..i];
  }

  /**
   * A read loop whose handling of a result prints `marker` exactly for an
   * `IoErr` ends its output with `marker` exactly when the reader delivers an
   * `IoErr`, and prints `marker` nowhere else.
   */
  lemma StopsAtFirstIoErr<U>(f: ReadResult -> seq<U>, results: seq<ReadResult>, marker: U)
    requires forall r :: IsIoErr(r) ==> f(r) == [marker]
    requires forall r :: !IsIoErr(r) ==> marker !in f(r)
    ensures var out := FlatMap(f, results[..Consumed(results)]);
      (exists k :: 0 <= k < |results| && IsIoErr(results[k])) <==> (out != [] && out[|out| - 1] == marker)
    ensures var out := FlatMap(f, results[..Consumed(results)]);
      forall i :: 0 <= i < |out| - 1 ==> out[i] != marker
  {
    var c := Consumed(results);
    var out := FlatMap(f, results[..c]);
    forall i | 0 <= i < |out| && out[i] == marker
      ensures i == |out| - 1 && IsIoErr(results[c - 1])
    {
      var before := FlatMap(f, results[..c - 1]);
      FlatMapStep(f, results, c - 1);
      assert results[..c - 1 + 1] == results[..c];
      assert out == before + f(results[c - 1]);
      if i < |before| {
        assert marker in before;
        FlatMapSource(f, results[..c - 1], marker);
        assert false;
      }
      assert marker in f(results[c - 1]);
    }
    if k :| 0 <= k < |results| && IsIoErr(results[k]) {
      assert c > 0 && IsIoErr(results[c - 1]);
      FlatMapStep(f, results, c - 1);
      assert results[..c - 1 + 1] == results[..c];
    }
  }

  /** An element whose handling contributes nothing leaves the output of the elements around it unchanged. */
  lemma FlatMapSkip<T, U>(f: T -> seq<U>, before: seq<T>, x: T, after: seq<T>)
    requires f(x) == []
    ensures FlatMap(f, before + [x] + after) == FlatMap(f, before + after)
  {
    FlatMapAppend(f, before + [x], after);
    FlatMapAppend(f, before, [x]);
    FlatMapAppend(f, before, after);
    assert [x][..0] == [];
  }
}
