/** The result-set decoder that every list action repeats: one record per inner element of
    every row, in order, built by a per-endpoint `decodeOne`; the first element that fails to
    decode raises the exception that ends the whole decoding. */
module Decoder {
  import opened Common
  import opened Clr
  import opened Json

  /** The records a decoding produced, and the exception that stopped it if one did. The
      records survive the exception: the list they were added to is the one the `catch`
      block appends its placeholder to. */
  datatype Decoding<R> = Decoding(records: seq<R>, failure: Option<Exn>)

  /** Decodes `xs` left to right, stopping at the first element that fails. */
  function DecodeSeq<R>(xs: seq<Json>, decodeOne: Json -> Result<R, Exn>): Decoding<R>
    decreases |xs|
  {
    if xs == [] then Decoding([], None)
    else
      match decodeOne(xs[0])
      case Failure(e) => Decoding([], Some(e))
      case Success(head) =>
        var rest := DecodeSeq(xs[1..], decodeOne);
        Decoding([head] + rest.records, rest.failure)
  }

  /** The decoding of the rows' elements. */
  function DecodeRowsSpec<R>(rows: seq<Json>, decodeOne: Json -> Result<R, Exn>): Decoding<R> {
    DecodeSeq(Elements(rows), decodeOne)
  }

  /** The whole decoding of a reply body: the envelope, then every element. */
  function DecodeBody<R>(lib: Library, body: string, decodeOne: Json -> Result<R, Exn>): Decoding<R> {
    match ResultRows(lib, body)
    case Failure(e) => Decoding([], Some(e))
    case Success(rows) => DecodeRowsSpec(rows, decodeOne)
  }

  /** Decoding a concatenation decodes the first part, then, unless that stopped, the second. */
  lemma {:induction false} DecodeSeqAppend<R>(xs: seq<Json>, ys: seq<Json>, decodeOne: Json -> Result<R, Exn>)
    ensures DecodeSeq(xs + ys, decodeOne) ==
      if DecodeSeq(xs, decodeOne).failure.Some? then DecodeSeq(xs, decodeOne)
      else Decoding(DecodeSeq(xs, decodeOne).records + DecodeSeq(ys, decodeOne).records,
                    DecodeSeq(ys, decodeOne).failure)
    decreases |xs|
  {
    if xs == [] {
      assert xs + ys == ys;
      assert [] + DecodeSeq(ys, decodeOne).records == DecodeSeq(ys, decodeOne).records;
    } else {
      assert (xs + ys)[0] == xs[0];
      assert (xs + ys)[1..] == xs[1..] + ys;
      DecodeSeqAppend(xs[1..], ys, decodeOne);
      if decodeOne(xs[0]).Success? && DecodeSeq(xs, decodeOne).failure.None? {
        var a := DecodeSeq(xs[1..], decodeOne).records;
        var b := DecodeSeq(ys, decodeOne).records;
        assert [decodeOne(xs[0]).value] + (a + b) == ([decodeOne(xs[0]).value] + a) + b;
      }
    }
  }

  /** What a decoding is, element by element: the records are those of the longest prefix of
      elements that decode, record `j` being element `j` decoded; the decoding fails exactly
      when that prefix is not everything, and then with the exception of the element after it. */
  lemma {:induction false} DecodeSeqSpec<R>(xs: seq<Json>, decodeOne: Json -> Result<R, Exn>)
    ensures var d := DecodeSeq(xs, decodeOne);
      && |d.records| <= |xs|
      && (forall j :: 0 <= j < |d.records| ==> decodeOne(xs[j]).Success? && d.records[j] == decodeOne(xs[j]).value)
      && (d.failure.None? <==> |d.records| == |xs|)
      && (d.failure.Some? ==> decodeOne(xs[|d.records|]) == Failure(d.failure.value))
    decreases |xs|
  {
    if xs != [] && decodeOne(xs[0]).Success? {
      DecodeSeqSpec(xs[1..], decodeOne);
      var d := DecodeSeq(xs, decodeOne);
      var rest := DecodeSeq(xs[1..], decodeOne);
      assert d.records == [decodeOne(xs[0]).value] + rest.records;
      forall j | 0 <= j < |d.records|
        ensures decodeOne(xs[j]).Success? && d.records[j] == decodeOne(xs[j]).value
      {
        if j > 0 { assert xs[j] == xs[1..][j - 1] && d.records[j] == rest.records[j - 1]; }
      }
      if d.failure.Some? { assert xs[|d.records|] == xs[1..][|rest.records|]; }
    }
  }

  /** In particular, decoding succeeds exactly when every element decodes, and then yields one
      record per element, in order. */
  lemma DecodeSeqSuccess<R>(xs: seq<Json>, decodeOne: Json -> Result<R, Exn>)
    ensures DecodeSeq(xs, decodeOne).failure.None? <==> forall k :: 0 <= k < |xs| ==> decodeOne(xs[k]).Success?
    ensures DecodeSeq(xs, decodeOne).failure.None? ==>
      |DecodeSeq(xs, decodeOne).records| == |xs| &&
      forall k :: 0 <= k < |xs| ==> DecodeSeq(xs, decodeOne).records[k] == decodeOne(xs[k]).value
  {
    DecodeSeqSpec(xs, decodeOne);
  }

  /** Decoding one more element that decodes appends its record. */
  lemma DecodeSeqSnoc<R>(done: seq<Json>, x: Json, list: seq<R>, decodeOne: Json -> Result<R, Exn>)
    requires DecodeSeq(done, decodeOne) == Decoding(list, None) && decodeOne(x).Success?
    ensures DecodeSeq(done + [x], decodeOne) == Decoding(list + [decodeOne(x).value], None)
  {
    DecodeSeqAppend(done, [x], decodeOne);
    assert [x][0] == x && [x][1..] == [];
    assert DecodeSeq([x][1..], decodeOne) == Decoding([], None);
    assert [decodeOne(x).value] + [] == [decodeOne(x).value];
  }

  /** An element that fails to decode after a prefix that decodes ends the decoding. */
  lemma DecodeSeqStopsAt<R>(done: seq<Json>, x: Json, rest: seq<Json>, list: seq<R>,
                            decodeOne: Json -> Result<R, Exn>)
    requires DecodeSeq(done, decodeOne) == Decoding(list, None) && decodeOne(x).Failure?
    ensures DecodeSeq(done + ([x] + rest), decodeOne) == Decoding(list, Some(decodeOne(x).error))
  {
    DecodeSeqAppend(done, [x] + rest, decodeOne);
    assert ([x] + rest)[0] == x;
    assert list + [] == list;
  }

  /** Element `j` of row `i` is preceded by the earlier rows' elements and row `i`'s first `j`. */
  lemma ElementsAround(rows: seq<Json>, i: nat, j: nat)
    requires i < |rows| && j < |Children(rows[i])|
    ensures Elements(rows) == (Elements(rows[..i]) + Children(rows[i])[..j])
      + ([Children(rows[i])[j]] + (Children(rows[i])[j + 1..] + Elements(rows[i + 1..])))
  {
    ElementsSplit(rows, i);
    SplitAt(Elements(rows[..i]), Children(rows[i]), Elements(rows[i + 1..]), j);
  }

  lemma SplitAt(e: seq<Json>, c: seq<Json>, t: seq<Json>, j: nat)
    requires j < |c|
    ensures e + c + t == (e + c[..j]) + ([c[j]] + (c[j + 1..] + t))
  {
    assert c == c[..j] + ([c[j]] + c[j + 1..]);
  }

  /** The elements of one more row. */
  lemma ElementsSnoc(rows: seq<Json>, i: nat)
    requires i < |rows|
    ensures Elements(rows[..i + 1]) == Elements(rows[..i]) + Children(rows[i])
  {
    assert rows[..i + 1] == rows[..i] + [rows[i]];
    ElementsAppend(rows[..i], [rows[i]]);
    assert [rows[i]][1..] == [];
  }

  /** The nested `foreach (row in rows) foreach (column in row) list.Add(decodeOne(column))`.
      An element that fails to decode throws, which leaves both loops with the records added
      so far. */
  method DecodeRows<R>(rows: seq<Json>, decodeOne: Json -> Result<R, Exn>)
    returns (list: seq<R>, failure: Option<Exn>)
    ensures Decoding(list, failure) == DecodeRowsSpec(rows, decodeOne)
  {
    list := [];
    var i := 0;
    while i < |rows|
      invariant 0 <= i <= |rows|
      invariant DecodeSeq(Elements(rows[..i]), decodeOne) == Decoding(list, None)
    {
      var columns := Children(rows[i]);
      var j := 0;
      assert Elements(rows[..i]) + columns[..j] == Elements(rows[..i]);
      while j < |columns|
        invariant 0 <= j <= |columns|
        invariant DecodeSeq(Elements(rows[..i]) + columns[..j], decodeOne) == Decoding(list, None)
      {
        var record := decodeOne(columns[j]);
        if record.Failure? {
          ElementsAround(rows, i, j);
          DecodeSeqStopsAt(Elements(rows[..i]) + columns[..j], columns[j],
                           columns[j + 1..] + Elements(rows[i + 1..]), list, decodeOne);
          return list, Some(record.error);
        }
        DecodeSeqSnoc(Elements(rows[..i]) + columns[..j], columns[j], list, decodeOne);
        assert columns[..j + 1] == columns[..j] + [columns[j]];
        assert Elements(rows[..i]) + columns[..j + 1] == (Elements(rows[..i]) + columns[..j]) + [columns[j]];
        list := list + [record.value];
        j := j + 1;
      }
      assert columns[..j] == columns;
      ElementsSnoc(rows, i);
      i := i + 1;
    }
    assert rows[..i] == rows;
    failure := None;
  }
}
