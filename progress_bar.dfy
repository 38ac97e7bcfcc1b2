/** The step indicator of the wizard and of the queue flow: a numbered circle and a
    label per step, with a connector between consecutive steps. */
module ProgressBar {

  datatype Part =
    | Step(number: int, highlighted: bool, text: string, textHighlighted: bool)
    | Connector(filled: bool)

  /** The fragment steps.map renders for the step at index and all later ones. */
  function From(steps: seq<string>, currentStep: int, index: nat): seq<Part>
    requires index <= |steps|
    decreases |steps| - index
  {
    if index == |steps| then []
    else
      [Step(index + 1, index <= currentStep, steps[index], index <= currentStep)]
      + (if index < |steps| - 1 then [Connector(index < currentStep)] else [])
      + From(steps, currentStep, index + 1)
  }

  /** The rendered bar. */
  function Render(steps: seq<string>, currentStep: int): seq<Part> {
    From(steps, currentStep, 0)
  }

  /** How many connectors a rendering holds. */
  function Connectors(parts: seq<Part>): nat {
    if parts == [] then 0 else (if parts[0].Connector? then 1 else 0) + Connectors(parts[1..])
  }

  lemma {:induction false} ConnectorsAppend(a: seq<Part>, b: seq<Part>)
    ensures Connectors(a + b) == Connectors(a) + Connectors(b)
    decreases |a|
  {
    if a != [] {
      assert (a + b)[0] == a[0];
      assert (a + b)[1..] == a[1..] + b;
      ConnectorsAppend(a[1..], b);
    } else {
      assert a + b == b;
    }
  }

  /** What the bar shows at position k: step k / 2 at an even k, the connector after
      it at an odd k. */
  function PartAt(steps: seq<string>, currentStep: int, k: nat): Part
    requires k / 2 < |steps|
  {
    var i := k / 2;
    if k % 2 == 0 then Step(i + 1, i <= currentStep, steps[i], i <= currentStep) else Connector(i < currentStep)
  }

  lemma {:induction false} FromLayout(steps: seq<string>, currentStep: int, index: nat)
    requires index <= |steps|
    ensures |From(steps, currentStep, index)| == if index == |steps| then 0 else 2 * (|steps| - index) - 1
    ensures forall j | 0 <= j < |From(steps, currentStep, index)| ::
      (2 * index + j) / 2 < |steps| && From(steps, currentStep, index)[j] == PartAt(steps, currentStep, 2 * index + j)
    decreases |steps| - index
  {
    if index < |steps| {
      FromLayout(steps, currentStep, index + 1);
      var f := From(steps, currentStep, index);
      var rest := From(steps, currentStep, index + 1);
      var pre := [Step(index + 1, index <= currentStep, steps[index], index <= currentStep)]
        + (if index < |steps| - 1 then [Connector(index < currentStep)] else []);
      assert f == pre + rest;
      forall j | 0 <= j < |f| ensures (2 * index + j) / 2 < |steps| && f[j] == PartAt(steps, currentStep, 2 * index + j) {
        if j >= |pre| {
          assert f[j] == rest[j - 2];
          assert 2 * (index + 1) + (j - 2) == 2 * index + j;
        }
      }
    }
  }

  /** Steps and connectors alternate: a bar of n steps shows step i, numbered i + 1
      and highlighted iff i <= currentStep, at position 2i, and at each odd position
      2i + 1 the connector after step i, filled iff i < currentStep. */
  lemma Layout(steps: seq<string>, currentStep: int)
    requires |steps| >= 1
    ensures |Render(steps, currentStep)| == 2 * |steps| - 1
    ensures forall i | 0 <= i < |steps| ::
      Render(steps, currentStep)[2 * i] == Step(i + 1, i <= currentStep, steps[i], i <= currentStep)
    ensures forall k | 0 <= k < |Render(steps, currentStep)| && k % 2 == 1 ::
      Render(steps, currentStep)[k] == Connector(k / 2 < currentStep)
  {
    FromLayout(steps, currentStep, 0);
    forall i | 0 <= i < |steps|
      ensures Render(steps, currentStep)[2 * i] == Step(i + 1, i <= currentStep, steps[i], i <= currentStep)
    {
      assert Render(steps, currentStep)[2 * i] == PartAt(steps, currentStep, 2 * 0 + 2 * i);
    }
  }

  /** Exactly one connector follows every step but the last. */
  lemma {:induction false} FromConnectors(steps: seq<string>, currentStep: int, index: nat)
    requires index <= |steps|
    ensures Connectors(From(steps, currentStep, index)) == if index == |steps| then 0 else |steps| - index - 1
    decreases |steps| - index
  {
    if index < |steps| {
      var head := [Step(index + 1, index <= currentStep, steps[index], index <= currentStep)];
      var connector := if index < |steps| - 1 then [Connector(index < currentStep)] else [];
      FromConnectors(steps, currentStep, index + 1);
      ConnectorsAppend(head + connector, From(steps, currentStep, index + 1));
      ConnectorsAppend(head, connector);
      assert Connectors(head) == 0 by { assert head[1..] == []; }
      assert Connectors(connector) == |connector| by {
        if connector != [] { assert connector[1..] == []; }
      }
    }
  }

  /** A bar of n >= 1 steps has n - 1 connectors. */
  lemma ConnectorCount(steps: seq<string>, currentStep: int)
    requires |steps| >= 1
    ensures Connectors(Render(steps, currentStep)) == |steps| - 1
  {
    FromConnectors(steps, currentStep, 0);
  }
}
