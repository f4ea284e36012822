/** The panel that holds the graph widgets: the "Set" button replaces them
    with a requested number of new widgets, assigned to the waveforms of
    `Signal_list` round-robin, and the global controls apply one widget
    operation to every graph in order. */
module Layout {
  import opened Common
  import opened Text
  import opened GuardedPlotting
  import opened Widget

  /** The (graph id, signal name) each of n new graphs gets: graph i has id
      i + 1 and signal `keys[i % 9]`. */
  function Assignment(n: nat): (a: seq<(int, string)>)
    ensures |a| == n
    ensures forall i :: 0 <= i < n ==> a[i] == (i + 1, SignalKeys()[i % 9])
  {
    seq(n, i requires 0 <= i < n => (i + 1, SignalKeys()[i % 9]))
  }

  /** The assignment is round-robin: graphs nine apart share a signal, and
      the ids are 1..n without repetition. */
  lemma {:induction false} AssignmentRoundRobin(n: nat, i: nat, j: nat)
    requires i < j < n
    ensures Assignment(n)[i].0 < Assignment(n)[j].0
    ensures Assignment(n)[i].1 == Assignment(n)[j].1 <==> i % 9 == j % 9
  {
    var ks := SignalKeys();
    assert Assignment(n)[i].1 == ks[i % 9] && Assignment(n)[j].1 == ks[j % 9];
  }

  /** Every assigned signal is a key of `Signal_list`. */
  lemma {:induction false} AssignedSignalsAreKeys(n: nat)
    ensures forall i :: 0 <= i < n ==> Assignment(n)[i].1 in SignalList()
  {
    SignalKeysAreKeys();
    var a := Assignment(n);
    forall i | 0 <= i < n
      ensures a[i].1 in SignalList()
    {
      var k := i % 9;
      assert a[i].1 == SignalKeys()[k];
    }
  }

  /** With at least nine graphs every key of `Signal_list` is assigned to
      some graph: the first nine graphs take the keys in order. */
  lemma {:induction false} AllSignalsAssigned(n: nat)
    requires n >= 9
    ensures forall key :: key in SignalList() ==> exists i :: 0 <= i < n && Assignment(n)[i].1 == key
  {
    var a := Assignment(n);
    forall key | key in SignalList()
      ensures exists i :: 0 <= i < n && a[i].1 == key
    {
      KeysAreListed();
      var i :| 0 <= i < 9 && SignalKeys()[i] == key;
      FirstNineInOrder(n, i);
    }
  }

  /** Graph i < 9 gets the i-th key itself. */
  lemma FirstNineInOrder(n: nat, i: nat)
    requires i < 9 && i < n
    ensures Assignment(n)[i].1 == SignalKeys()[i]
  {
    assert i % 9 == i;
  }

  /** A widget as its constructor leaves it: no logger, not logging, the
      log controls agreeing with that, and no worker running. */
  predicate NewWidget(g: GraphWidget)
    reads g
  {
    g.LogControlsAgree() && g.logger == null && !g.isLogging && !g.plotRunning
  }

  class GenerateGraph {
    /** `self.graphs`: the widgets, in display order. */
    var graphs: seq<GraphWidget>
    /** The text of the "Enter no of graphs" field. */
    var countText: string

    constructor ()
      ensures graphs == [] && countText == ""
    {
      graphs := [];
      countText := "";
    }

    /** `on_set_clicked()`: text that `int()` rejects, or a count of at most
        zero, leaves the graphs as they were. Otherwise the list is replaced
        by exactly that many new widgets, graph i with the id and signal of
        Assignment, each one new and distinct from the others. */
    method OnSetClicked()
      modifies this`graphs
      ensures ParseInt(countText).None? || ParseInt(countText).value <= 0 ==> graphs == old(graphs)
      ensures ParseInt(countText).Some? && ParseInt(countText).value > 0 ==>
        var n := ParseInt(countText).value;
        |graphs| == n
        && (forall i :: 0 <= i < n ==> (graphs[i].graphId, graphs[i].signalName) == Assignment(n)[i])
        && (forall i :: 0 <= i < n ==> fresh(graphs[i]) && NewWidget(graphs[i]))
        && (forall i, j :: 0 <= i < j < n ==> graphs[i] != graphs[j])
    {
      var parsed := ParseInt(countText);
      if parsed.None? || parsed.value <= 0 {
        return;
      }
      SetGraphs(parsed.value);
    }

    /** The graphs of a positive count: exactly n new widgets, graph i with
        the id and signal of Assignment, each one new and distinct from the
        others. */
    method SetGraphs(n: nat)
      modifies this`graphs
      ensures |graphs| == n
      ensures forall i :: 0 <= i < n ==> (graphs[i].graphId, graphs[i].signalName) == Assignment(n)[i]
      ensures forall i :: 0 <= i < n ==> fresh(graphs[i]) && NewWidget(graphs[i])
      ensures forall i, j :: 0 <= i < j < n ==> graphs[i] != graphs[j]
    {
      var keys := SignalKeys();
      SignalKeysAreKeys();
      var created := NewGraphs(n, keys);
      var a := Assignment(n);
      forall i | 0 <= i < n
        ensures (created[i].graphId, created[i].signalName) == a[i]
      {
        assert a[i] == (i + 1, keys[i % 9]);
      }
      graphs := created;
    }

    /** The loop of `on_set_clicked`: `total` new widgets, graph i with id
        i + 1 and signal `keys[i % 9]`, `keys` being the keys of
        `Signal_list`. */
    static method NewGraphs(total: nat, keys: seq<string>) returns (created: seq<GraphWidget>)
      requires |keys| == 9 && forall k :: 0 <= k < 9 ==> keys[k] in SignalList()
      ensures |created| == total
      ensures forall i :: 0 <= i < total ==> created[i].graphId == i + 1 && created[i].signalName == keys[i % 9]
      ensures forall i :: 0 <= i < total ==> fresh(created[i]) && NewWidget(created[i])
      ensures forall i, j :: 0 <= i < j < total ==> created[i] != created[j]
    {
      created := [];
      var i := 0;
      while i < total
        invariant 0 <= i <= total
        invariant |created| == i
        invariant forall k :: 0 <= k < i ==> created[k].graphId == k + 1 && created[k].signalName == keys[k % 9]
        invariant forall k :: 0 <= k < i ==> fresh(created[k]) && NewWidget(created[k])
        invariant forall k, l :: 0 <= k < l < i ==> created[k] != created[l]
      {
        var graph := new GraphWidget(i + 1, keys[i % 9]);
        created := created + [graph];
        i := i + 1;
      }
    }

    /** `start_all()`: every graph's plot is started. */
    method StartAll()
      modifies set g | g in graphs
      ensures forall g :: g in graphs ==> g.plotRunning
      ensures forall g :: g in graphs ==>
        g.curve == old(g.curve) && g.LogState() == old(g.LogState()) && g.Settings() == old(g.Settings())
    {
      var i := 0;
      while i < |graphs|
        invariant 0 <= i <= |graphs|
        invariant forall k :: 0 <= k < i ==> graphs[k].plotRunning
        invariant forall g :: g in graphs ==>
          g.curve == old(g.curve) && g.LogState() == old(g.LogState()) && g.Settings() == old(g.Settings())
      {
        graphs[i].StartPlot();
        i := i + 1;
      }
    }

    /** `stop_all()`: every graph's plot is stopped. */
    method StopAll()
      modifies set g | g in graphs
      ensures forall g :: g in graphs ==> !g.plotRunning
      ensures forall g :: g in graphs ==>
        g.curve == old(g.curve) && g.LogState() == old(g.LogState()) && g.Settings() == old(g.Settings())
    {
      var i := 0;
      while i < |graphs|
        invariant 0 <= i <= |graphs|
        invariant forall k :: 0 <= k < i ==> !graphs[k].plotRunning
        invariant forall g :: g in graphs ==>
          g.curve == old(g.curve) && g.LogState() == old(g.LogState()) && g.Settings() == old(g.Settings())
      {
        graphs[i].StopPlot();
        i := i + 1;
      }
    }

    /** `reset_all()`: every graph is stopped and gets a new, empty curve. */
    method ResetAll()
      modifies set g | g in graphs
      ensures forall g :: g in graphs ==>
        !g.plotRunning && fresh(g.curve) && g.curve.xData == Some([]) && g.curve.yData == Some([])
      ensures forall g :: g in graphs ==> g.LogState() == old(g.LogState()) && g.Settings() == old(g.Settings())
    {
      var i := 0;
      while i < |graphs|
        invariant 0 <= i <= |graphs|
        invariant forall k :: 0 <= k < i ==>
          !graphs[k].plotRunning && fresh(graphs[k].curve)
          && graphs[k].curve.xData == Some([]) && graphs[k].curve.yData == Some([])
        invariant forall g :: g in graphs ==> g.LogState() == old(g.LogState()) && g.Settings() == old(g.Settings())
      {
        graphs[i].ResetPlot();
        i := i + 1;
      }
    }

    /** `stop_logging_all()`: logging stops on every graph. */
    method StopLoggingAll()
      modifies set g | g in graphs
      ensures forall g :: g in graphs ==> g.LogControlsAgree() && !g.isLogging
      ensures forall g :: g in graphs ==>
        g.curve == old(g.curve) && g.plotRunning == old(g.plotRunning) && g.Settings() == old(g.Settings())
    {
      var i := 0;
      while i < |graphs|
        invariant 0 <= i <= |graphs|
        invariant forall k :: 0 <= k < i ==> graphs[k].LogControlsAgree() && !graphs[k].isLogging
        invariant forall g :: g in graphs ==>
          g.curve == old(g.curve) && g.plotRunning == old(g.plotRunning) && g.Settings() == old(g.Settings())
      {
        graphs[i].StopLogging();
        i := i + 1;
      }
    }
  }
}
