/**
 * The flattening of the realtime-data reply into text: one line
 * metricID{name="objectName"}=value per value, items first, then the values
 * of each item, every value asserted to be a string.
 */
module Rendering {
  import opened Records
  import opened Outcomes

  /** The run-time panic of the type assertion: items[item].values[value] is not a string. */
  datatype RenderFailure = NonStringValue(item: nat, value: nat)

  predicate StringValued(values: seq<MetricSample>)
  {
    forall k :: 0 <= k < |values| ==> values[k].value.StringValue?
  }

  predicate AllStringValued(items: seq<MonitorItem>)
  {
    forall i :: 0 <= i < |items| ==> StringValued(items[i].values)
  }

  /** The line written for one value of the object objectName. */
  function Line(objectName: string, s: MetricSample): string
    requires s.value.StringValue?
  {
    s.metricID + "{name=\"" + objectName + "\"}=" + s.value.text + "\n"
  }

  /** The lines of one item's values, in order. */
  function ItemText(objectName: string, values: seq<MetricSample>): string
    requires StringValued(values)
  {
    if |values| == 0 then ""
    else ItemText(objectName, values[..|values| - 1]) + Line(objectName, values[|values| - 1])
  }

  /** The lines of all items, in order: the text the builder holds when every value is a string. */
  function Flatten(items: seq<MonitorItem>): string
    requires AllStringValued(items)
  {
    if |items| == 0 then ""
    else Flatten(items[..|items| - 1]) + ItemText(items[|items| - 1].objectName, items[|items| - 1].values)
  }

  /** (i, j) is the first value, in iteration order, that is not a string. */
  predicate FirstNonString(items: seq<MonitorItem>, i: nat, j: nat)
  {
    && i < |items| && j < |items[i].values|
    && items[i].values[j].value.NonString?
    && AllStringValued(items[..i])
    && StringValued(items[i].values[..j])
  }

  /** Walking one item's values: its text, or the index of the first value that is not a string. */
  function ItemResult(objectName: string, values: seq<MetricSample>): (r: Result<string, nat>)
    ensures r.Success? <==> StringValued(values)
    ensures r.Success? ==> r.value == ItemText(objectName, values)
    ensures r.Failure? ==>
              r.error < |values| && values[r.error].value.NonString? && StringValued(values[..r.error])
  {
    if |values| == 0 then Success("")
    else
      var last := values[|values| - 1];
      match ItemResult(objectName, values[..|values| - 1])
      case Failure(j) =>
        assert values[..|values| - 1][..j] == values[..j];
        Failure(j)
      case Success(t) =>
        if last.value.StringValue? then Success(t + Line(objectName, last))
        else Failure(|values| - 1)
  }

  /**
   * The outcome of the nested loops: the whole text when every value is a
   * string, otherwise the position where the type assertion panics.
   */
  function RenderResult(items: seq<MonitorItem>): (r: Result<string, RenderFailure>)
    ensures r.Success? <==> AllStringValued(items)
    ensures r.Success? ==> r.value == Flatten(items)
    ensures r.Failure? ==> FirstNonString(items, r.error.item, r.error.value)
  {
    if |items| == 0 then Success("")
    else
      var n := |items| - 1;
      match RenderResult(items[..n])
      case Failure(e) =>
        assert items[..n][..e.item] == items[..e.item];
        Failure(e)
      case Success(m) =>
        match ItemResult(items[n].objectName, items[n].values)
        case Success(t) => Success(m + t)
        case Failure(j) => Failure(NonStringValue(n, j))
  }

  /** The failure position is determined: there is only one first non-string value. */
  lemma FirstNonStringUnique(items: seq<MonitorItem>, i: nat, j: nat, i': nat, j': nat)
    requires FirstNonString(items, i, j) && FirstNonString(items, i', j')
    ensures i == i' && j == j'
  {
  }

  /** The first non-string value is where the flattening fails. */
  lemma FailsAtFirstNonString(items: seq<MonitorItem>, i: nat, j: nat)
    requires FirstNonString(items, i, j)
    ensures RenderResult(items) == Failure(NonStringValue(i, j))
  {
    var e := RenderResult(items).error;
    FirstNonStringUnique(items, i, j, e.item, e.value);
  }

  /** One more item of string values extends the text by that item's lines. */
  lemma FlattenStep(items: seq<MonitorItem>, i: nat)
    requires i < |items| && AllStringValued(items[..i]) && StringValued(items[i].values)
    ensures AllStringValued(items[..i + 1])
    ensures Flatten(items[..i + 1]) == Flatten(items[..i]) + ItemText(items[i].objectName, items[i].values)
  {
    assert items[..i + 1][..i] == items[..i];
  }

  /** One more string value extends an item's text by its line. */
  lemma ItemTextStep(objectName: string, values: seq<MetricSample>, j: nat)
    requires j < |values| && StringValued(values[..j]) && values[j].value.StringValue?
    ensures StringValued(values[..j + 1])
    ensures ItemText(objectName, values[..j + 1]) == ItemText(objectName, values[..j]) + Line(objectName, values[j])
  {
    assert values[..j + 1][..j] == values[..j];
  }

  /** The nested loops of the flattener, writing into one growing message. */
  method Render(items: seq<MonitorItem>) returns (r: Result<string, RenderFailure>)
    ensures r == RenderResult(items)
  {
    var message := "";
    for i := 0 to |items|
      invariant AllStringValued(items[..i])
      invariant message == Flatten(items[..i])
    {
      var item := items[i];
      var before := message;
      for j := 0 to |item.values|
        invariant StringValued(item.values[..j])
        invariant message == before + ItemText(item.objectName, item.values[..j])
      {
        var value := item.values[j];
        if !value.value.StringValue? {
          FailsAtFirstNonString(items, i, j);
          return Failure(NonStringValue(i, j));
        }
        ItemTextStep(item.objectName, item.values, j);
        message := message + Line(item.objectName, value);
      }
      assert item.values[..|item.values|] == item.values;
      FlattenStep(items, i);
    }
    assert items[..|items|] == items;
    return Success(message);
  }

  /** Rendering two replies one after the other is rendering their concatenation. */
  lemma {:induction false} FlattenAppend(a: seq<MonitorItem>, b: seq<MonitorItem>)
    requires AllStringValued(a) && AllStringValued(b)
    ensures AllStringValued(a + b)
    ensures Flatten(a + b) == Flatten(a) + Flatten(b)
  {
    if |b| == 0 {
      assert a + b == a;
    } else {
      var b' := b[..|b| - 1];
      assert (a + b)[..|a + b| - 1] == a + b';
      FlattenAppend(a, b');
    }
  }

  /** The number of values in the reply. */
  function TotalValues(items: seq<MonitorItem>): nat
  {
    if |items| == 0 then 0 else TotalValues(items[..|items| - 1]) + |items[|items| - 1].values|
  }

  /** No metric id, object name or string value holds a line break. */
  predicate NoLineBreaks(items: seq<MonitorItem>)
  {
    forall i :: 0 <= i < |items| ==>
      '\n' !in items[i].objectName &&
      forall k :: 0 <= k < |items[i].values| ==>
        '\n' !in items[i].values[k].metricID &&
        (items[i].values[k].value.StringValue? ==> '\n' !in items[i].values[k].value.text)
  }

  /** The number of line breaks in s. */
  function Breaks(s: string): nat
  {
    multiset(s)['\n']
  }

  lemma LineHasOneBreak(objectName: string, s: MetricSample)
    requires s.value.StringValue?
    requires '\n' !in objectName && '\n' !in s.metricID && '\n' !in s.value.text
    ensures Breaks(Line(objectName, s)) == 1
  {
    var open, close := "{name=\"", "\"}=";
    assert Breaks(open) == 0 by { assert '\n' !in open; }
    assert Breaks(close) == 0 by { assert '\n' !in close; }
    assert Breaks(objectName) == 0 && Breaks(s.metricID) == 0 && Breaks(s.value.text) == 0;
    assert Breaks("\n") == 1;
    assert Line(objectName, s) == s.metricID + open + objectName + close + s.value.text + "\n";
  }

  lemma {:induction false} ItemLineCount(objectName: string, values: seq<MetricSample>)
    requires StringValued(values)
    requires '\n' !in objectName
    requires forall k :: 0 <= k < |values| ==> '\n' !in values[k].metricID && '\n' !in values[k].value.text
    ensures Breaks(ItemText(objectName, values)) == |values|
  {
    if |values| > 0 {
      var n := |values| - 1;
      ItemLineCount(objectName, values[..n]);
      LineHasOneBreak(objectName, values[n]);
      assert ItemText(objectName, values) == ItemText(objectName, values[..n]) + Line(objectName, values[n]);
    }
  }

  /** When no field holds a line break, the text has exactly one line per value. */
  lemma {:induction false} OneLinePerValue(items: seq<MonitorItem>)
    requires AllStringValued(items) && NoLineBreaks(items)
    ensures Breaks(Flatten(items)) == TotalValues(items)
  {
    if |items| > 0 {
      var n := |items| - 1;
      assert NoLineBreaks(items[..n]) by {
        forall i | 0 <= i < n ensures items[..n][i] == items[i] { }
      }
      OneLinePerValue(items[..n]);
      ItemLineCount(items[n].objectName, items[n].values);
    }
  }
}
