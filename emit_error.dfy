/** The summary error returned when datasets of one request could not be emitted:
    "N out of M datasets could not be emitted. Reasons: " followed by the distinct
    failure messages, comma-joined, each once, in order of first occurrence. */
module EmitError {
  import opened Results
  import opened Text

  /** The fixed opening of the composed error. */
  function Header(failed: nat, dataSetLength: int): string
  {
    NatToDecimal(failed) + " out of " + IntToDecimal(dataSetLength)
      + " datasets could not be emitted. Reasons: "
  }

  /** What the composed error says, stated without the loop: nothing for no errors,
      otherwise the header followed by the distinct messages joined with commas. */
  function ComposedError(emitErrs: seq<string>, dataSetLength: int): Option<string>
  {
    if |emitErrs| == 0 then None
    else Some(Header(|emitErrs|, dataSetLength) + Join(Dedup(emitErrs), ','))
  }

  /** Builds the composed error as the source does: the header, then each message not
      seen before followed by a comma, then the last character cut off. Errors are
      modelled by their messages; `None` is the nil error. */
  method ComposeEmitError(emitErrs: seq<string>, dataSetLength: int) returns (r: Option<string>)
    ensures r == ComposedError(emitErrs, dataSetLength)
  {
    if |emitErrs| == 0 {
      return None;
    }
    var header := Header(|emitErrs|, dataSetLength);
    var composed := AppendDistinctMessages(header, emitErrs);
    DedupElements(emitErrs);
    assert emitErrs[0] in Dedup(emitErrs);
    DropLastSeparator(header, Dedup(emitErrs));
    r := Some(composed[..|composed| - 1]);
  }

  /** The loop of the composed error: appends each message followed by a comma, skipping
      a message already appended (tracked in a set, as the source's `messages` map). */
  method AppendDistinctMessages(composed: string, emitErrs: seq<string>) returns (result: string)
    ensures result == composed + Terminated(Dedup(emitErrs), ',')
  {
    result := composed;
    var messages: set<string> := {};
    for i := 0 to |emitErrs|
      invariant forall m :: m in messages <==> m in emitErrs[..i]
      invariant result == composed + Terminated(Dedup(emitErrs[..i]), ',')
    {
      var msg := emitErrs[i];
      DedupSnoc(emitErrs, i);
      assert emitErrs[..i + 1] == emitErrs[..i] + [msg];
      if msg !in messages {
        AppendTerminated(composed, Dedup(emitErrs[..i]), msg);
        messages := messages + {msg};
        result := result + msg + ",";
      }
    }
    assert emitErrs[..|emitErrs|] == emitErrs;
  }

  lemma AppendTerminated(header: string, distinct: seq<string>, msg: string)
    ensures header + Terminated(distinct, ',') + msg + "," == header + Terminated(distinct + [msg], ',')
  {
    TerminatedSnoc(distinct, msg, ',');
  }

  /** Cutting the last character off the header and the terminated messages leaves the
      header and the joined messages. */
  lemma DropLastSeparator(header: string, distinct: seq<string>)
    requires |distinct| >= 1
    ensures var c := header + Terminated(distinct, ',');
            |c| >= 1 && c[..|c| - 1] == header + Join(distinct, ',')
  {
    TerminatedIsJoin(distinct, ',');
    var reasons := Join(distinct, ',');
    assert header + Terminated(distinct, ',') == (header + reasons) + ",";
  }

  /** The result is nil exactly when there are no errors. */
  lemma ComposedErrorNilIffEmpty(emitErrs: seq<string>, dataSetLength: int)
    ensures ComposedError(emitErrs, dataSetLength) == None <==> |emitErrs| == 0
  {
  }

  /** A non-nil result starts with the header. */
  lemma ComposedErrorHeader(emitErrs: seq<string>, dataSetLength: int)
    requires |emitErrs| > 0
    ensures var r := ComposedError(emitErrs, dataSetLength);
            r.Some? && r.value[..|Header(|emitErrs|, dataSetLength)|] == Header(|emitErrs|, dataSetLength)
  {
    SplitAt(Header(|emitErrs|, dataSetLength), Join(Dedup(emitErrs), ','));
  }

  /** The header starts with the failure count, then " out of ", then the dataset count,
      and both counts read back from the text as the values that were formatted. */
  lemma HeaderReadsBack(failed: nat, dataSetLength: int)
    ensures var h := Header(failed, dataSetLength);
            var count := NatToDecimal(failed);
            var total := IntToDecimal(dataSetLength);
            && h[..|count|] == count && DecimalValue(count) == failed
            && h[|count|..|count| + 8] == " out of "
            && h[|count| + 8..|count| + 8 + |total|] == total
            && ParseDecimal(total) == dataSetLength
  {
    HeaderFields(NatToDecimal(failed), IntToDecimal(dataSetLength),
                 " datasets could not be emitted. Reasons: ");
    NatDecimalRoundTrip(failed);
    IntDecimalRoundTrip(dataSetLength);
  }

  lemma SplitAt(a: string, b: string)
    ensures (a + b)[..|a|] == a && (a + b)[|a|..] == b
  {
  }

  lemma HeaderFields(count: string, total: string, rest: string)
    ensures var v := count + " out of " + total + rest;
            && v[..|count|] == count
            && v[|count|..|count| + 8] == " out of "
            && v[|count| + 8..|count| + 8 + |total|] == total
  {
  }

  /** Everything after the header is the list of distinct messages: split at the commas it
      gives back exactly the de-duplicated messages (when no message holds a comma), so
      each message that occurred appears exactly once, in order of first occurrence, and
      no other message appears. */
  lemma ComposedErrorReasons(emitErrs: seq<string>, dataSetLength: int)
    requires |emitErrs| > 0
    requires forall i :: 0 <= i < |emitErrs| ==> ',' !in emitErrs[i]
    ensures var r := ComposedError(emitErrs, dataSetLength);
            var reasons := Split(r.value[|Header(|emitErrs|, dataSetLength)|..], ',');
            && r.Some?
            && reasons == Dedup(emitErrs)
            && (forall m :: multiset(reasons)[m] == if m in emitErrs then 1 else 0)
            && (forall i, j :: 0 <= i < j < |reasons| ==>
                  FirstIndex(emitErrs, reasons[i]) < FirstIndex(emitErrs, reasons[j]))
  {
    var d := Dedup(emitErrs);
    var h := Header(|emitErrs|, dataSetLength);
    DedupElements(emitErrs);
    DedupCounts(emitErrs);
    DedupFirstOccurrenceOrder(emitErrs);
    assert emitErrs[0] in d;
    forall i | 0 <= i < |d| ensures ',' !in d[i] {
      assert d[i] in emitErrs;
    }
    SplitJoin(d, ',');
    assert (h + Join(d, ','))[|h|..] == Join(d, ',');
  }

  /** Three failing datasets out of five, one reason repeated: the count includes the
      repeat, the reasons do not. */
  lemma ComposedErrorExample()
    ensures ComposedError(["timeout", "invalid payload", "timeout"], 5)
         == Some(Header(3, 5) + "timeout,invalid payload")
  {
    ExampleDedup();
    ExampleJoin();
  }

  lemma ExampleDedup()
    ensures Dedup(["timeout", "invalid payload", "timeout"]) == ["timeout", "invalid payload"]
  {
    var errs := ["timeout", "invalid payload", "timeout"];
    var one := ["timeout"];
    var two := ["timeout", "invalid payload"];
    assert one[..0] == [];
    assert two[..1] == one;
    assert errs[..2] == two;
  }

  lemma ExampleJoin()
    ensures Join(["timeout", "invalid payload"], ',') == "timeout,invalid payload"
  {
    var two := ["timeout", "invalid payload"];
    assert two[..1] == ["timeout"];
    assert "timeout" + "," == "timeout,";
    assert "timeout," + "invalid payload" == "timeout,invalid payload";
  }
}
