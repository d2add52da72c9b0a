/** The ExpIA main window: the frames it has loaded (a mesh bundle and a
    label vector per frame), the object models, the open viewer widgets and
    the editing job that may be running. Meshes are represented by their
    vertex counts, widgets by identities, and the file dialogs, file loading
    and the jobs themselves are parameters of the operations. */
module ExpIA {
  import opened Numeric

  datatype Option<T> = None | Some(value: T)

  /** The editing actions of the menu. Supervoxel, region growing, colour and
      size unification and label update run as background jobs; manual
      unification and object-model update open a window instead. */
  datatype Action = Supervoxel | RegionGrow | UseColorAndSize | Manually | UpdateObjModel | UpdateLabel | OtherAction

  predicate IsJob(a: Action)
  {
    a == Supervoxel || a == RegionGrow || a == UseColorAndSize || a == UpdateLabel
  }

  /** What `start_editing` did. */
  datatype EditOutcome = Busy | NoInputs | MissingConfigure | Started | Opened | Ignored

  /** A zero label vector of n entries. */
  function Zeros(n: nat): (z: seq<nat>)
    ensures |z| == n && forall i :: 0 <= i < n ==> z[i] == 0
  {
    seq(n, _ => 0)
  }

  // ---------------------------------------------------------------------------
  // Viewer widgets

  /** The index of the first occurrence of w, or |views| when there is none. */
  function FirstIndex(views: seq<nat>, w: nat): (i: nat)
    ensures i <= |views| && w !in views[..i]
    ensures i < |views| ==> views[i] == w
  {
    if views == [] then 0
    else if views[0] == w then 0
    else
      var i := 1 + FirstIndex(views[1..], w);
      assert views[..i] == [views[0]] + views[1..][..i - 1];
      i
  }

  /** `removeView` on a sender w: the last widget is popped when it is w;
      otherwise the first occurrence of w is overwritten with the last widget,
      which is then popped. */
  function RemovedView(views: seq<nat>, w: nat): seq<nat>
  {
    if views == [] then views
    else if views[|views| - 1] == w then views[..|views| - 1]
    else
      var i := FirstIndex(views, w);
      if i < |views| then views[..|views| - 1][i := views[|views| - 1]] else views
  }

  /** Exactly one occurrence of w goes, and nothing else changes in the
      multiset of widgets; without an occurrence the list is untouched. */
  lemma {:induction false} RemovedViewOnce(views: seq<nat>, w: nat)
    ensures w in views ==> multiset(RemovedView(views, w)) == multiset(views) - multiset{w}
    ensures w in views ==> |RemovedView(views, w)| == |views| - 1
    ensures w !in views ==> RemovedView(views, w) == views
  {
    if views != [] {
      var n := |views| - 1;
      var front, last := views[..n], views[n];
      assert views == front + [last];
      if last == w {
        assert RemovedView(views, w) == front;
      } else {
        var i := FirstIndex(views, w);
        if i < |views| {
          assert i < n && front[i] == w;
          assert RemovedView(views, w) == front[i := last];
          SwapRemoved(front, i, last);
        } else {
          assert views[..i] == views;
        }
      }
    }
  }

  /** Overwriting entry i of a front part with the last element: the last
      element is kept once more and entry i is gone. */
  lemma SwapRemoved(front: seq<nat>, i: nat, last: nat)
    requires i < |front|
    ensures multiset(front[i := last]) == multiset(front + [last]) - multiset{front[i]}
  {
    assert front == front[..i] + [front[i]] + front[i + 1..];
    assert front[i := last] == front[..i] + [last] + front[i + 1..];
  }

  // ---------------------------------------------------------------------------
  // Labels

  /** The label file of frame i fits when it loaded and has one entry per
      vertex. */
  predicate Fits(loaded: nat -> Option<seq<nat>>, inputs: seq<nat>, i: nat)
    requires i < |inputs|
  {
    loaded(i).Some? && |loaded(i).value| == inputs[i]
  }

  /** The first frame whose label file does not fit, or the frame count. */
  function FirstMisfit(loaded: nat -> Option<seq<nat>>, inputs: seq<nat>, n: nat): (i: nat)
    requires n <= |inputs|
    ensures i <= n && forall j :: 0 <= j < i ==> Fits(loaded, inputs, j)
    ensures i < n ==> !Fits(loaded, inputs, i)
  {
    if n == 0 then 0
    else
      var i := FirstMisfit(loaded, inputs, n - 1);
      if i < n - 1 then i else if Fits(loaded, inputs, n - 1) then n else n - 1
  }

  /** A misfit, once found, stays the first one. */
  lemma {:induction false} MisfitStays(loaded: nat -> Option<seq<nat>>, inputs: seq<nat>, m: nat, n: nat)
    requires m < n <= |inputs| && FirstMisfit(loaded, inputs, m + 1) == m
    ensures FirstMisfit(loaded, inputs, n) == m
    decreases n
  {
    if n > m + 1 {
      MisfitStays(loaded, inputs, m, n - 1);
    }
  }

  /** The largest label of frames 0 .. n-1, from 0. */
  function MaxLabel(labels: seq<seq<nat>>, n: nat): (m: nat)
    requires n <= |labels| && forall i :: 0 <= i < |labels| ==> |labels[i]| > 0
  {
    if n == 0 then 0
    else
      var m := MaxLabel(labels, n - 1);
      if NatMax(labels[n - 1]) > m then NatMax(labels[n - 1]) else m
  }

  /** The largest label is at least every label, and some frame holds it. */
  lemma {:induction false} MaxLabelIsMax(labels: seq<seq<nat>>, n: nat)
    requires n <= |labels| && forall i :: 0 <= i < |labels| ==> |labels[i]| > 0
    ensures forall i, j :: 0 <= i < n && 0 <= j < |labels[i]| ==> labels[i][j] <= MaxLabel(labels, n)
    ensures n > 0 ==> exists i :: 0 <= i < n && MaxLabel(labels, n) in labels[i]
  {
    if n > 0 {
      MaxLabelIsMax(labels, n - 1);
      var v := NatMax(labels[n - 1]);
      if n - 1 > 0 && v <= MaxLabel(labels, n - 1) {
        var i :| 0 <= i < n - 1 && MaxLabel(labels, n - 1) in labels[i];
        assert 0 <= i < n && MaxLabel(labels, n) in labels[i];
      } else {
        assert MaxLabel(labels, n) in labels[n - 1];
      }
    }
  }

  class MainWindow {
    /** `inputs_`: the vertex count of each frame's mesh. */
    var inputs: seq<nat>
    /** `labels_`: one label vector per frame. */
    var labels: seq<seq<nat>>
    /** `objects_.size()`. */
    var objects: nat
    /** `mesh_views_`: the open viewer widgets. */
    var views: seq<nat>
    /** `edit_thread_`: the job that is running, if any. */
    var editThread: Option<Action>

    /** `open_inputs`: both lists are cleared, then every file adds its mesh
        and a zero label vector with one entry per vertex. */
    method OpenInputs(vertexCounts: seq<nat>)
      modifies this
      ensures inputs == vertexCounts && |labels| == |inputs|
      ensures forall i :: 0 <= i < |labels| ==> labels[i] == Zeros(inputs[i])
      ensures objects == old(objects) && views == old(views) && editThread == old(editThread)
    {
      var ins: seq<nat> := [];
      var ls: seq<seq<nat>> := [];
      for k := 0 to |vertexCounts|
        invariant ins == vertexCounts[..k] && |ls| == k
        invariant forall i :: 0 <= i < k ==> ls[i] == Zeros(ins[i])
      {
        ins := ins + [vertexCounts[k]];
        ls := ls + [Zeros(vertexCounts[k])];
      }
      inputs := ins;
      labels := ls;
    }

    /** `load_labels`: without a chosen directory nothing changes. Otherwise
        the label list is resized to the frame count and frame after frame
        takes its loaded labels, stopping at the first file that fails to
        load or has the wrong length. The frames before it have their new
        labels, the rest keep the resized ones. An empty frame list only
        draws a message and goes on. */
    method LoadLabels(dirChosen: bool, loaded: nat -> Option<seq<nat>>) returns (ok: bool)
      modifies this
      ensures inputs == old(inputs) && objects == old(objects) && views == old(views) && editThread == old(editThread)
      ensures !dirChosen ==> !ok && labels == old(labels)
      ensures ok ==> |labels| == |inputs| && forall j :: 0 <= j < |labels| ==> |labels[j]| == inputs[j]
      ensures dirChosen ==> var i := FirstMisfit(loaded, inputs, |inputs|);
                (ok <==> i == |inputs|) && |labels| == |inputs| &&
                (forall j :: 0 <= j < |labels| ==> if j < i then loaded(j) == Some(labels[j]) else labels[j] == Resize(old(labels), |inputs|, [])[j])
    {
      if !dirChosen {
        return false;
      }
      var ls := labels;
      if |ls| != |inputs| {
        ls := Resize(ls, |inputs|, []);
      }
      assert ls == Resize(labels, |inputs|, []);
      ghost var start := ls;
      var k := 0;
      while k < |ls|
        invariant k <= |ls| == |inputs| && FirstMisfit(loaded, inputs, k) == k
        invariant forall j :: 0 <= j < |ls| ==> if j < k then loaded(j) == Some(ls[j]) else ls[j] == start[j]
      {
        var file := loaded(k);
        if file.None? || |file.value| != inputs[k] {
          assert FirstMisfit(loaded, inputs, k + 1) == k;
          MisfitStays(loaded, inputs, k, |inputs|);
          labels := ls;
          return false;
        }
        ls := ls[k := file.value];
        k := k + 1;
      }
      forall j | 0 <= j < |ls|
        ensures |ls[j]| == inputs[j]
      {
        assert Fits(loaded, inputs, j);
      }
      labels := ls;
      ok := true;
    }

    /** The check at the end of `load_objects`: with labels present, the
        largest label over all frames must equal the number of objects;
        otherwise a warning is raised. */
    method CheckObjects() returns (warned: bool)
      requires forall i :: 0 <= i < |labels| ==> |labels[i]| > 0
      ensures warned <==> labels != [] && MaxLabel(labels, |labels|) != objects
    {
      if labels != [] {
        var maxLabel := 0;
        for k := 0 to |labels|
          invariant maxLabel == MaxLabel(labels, k)
        {
          var m := NatMax(labels[k]);
          if m > maxLabel {
            maxLabel := m;
          }
        }
        if maxLabel != objects {
          return true;
        }
      }
      return false;
    }

    /** `removeView` for the widget that sent the signal (None when the
        sender is not a viewer widget). */
    method RemoveView(sender: Option<nat>)
      modifies this
      ensures sender.None? ==> views == old(views)
      ensures sender.Some? ==> views == RemovedView(old(views), sender.value)
      ensures inputs == old(inputs) && labels == old(labels) && objects == old(objects) && editThread == old(editThread)
    {
      if sender.None? {
        return;
      }
      var w := sender.value;
      if views == [] {
        return;
      }
      var n := |views| - 1;
      if views[n] == w {
        views := views[..n];
      } else {
        var idx := 0;
        while idx < |views|
          invariant idx <= |views| && w !in views[..idx]
          invariant views == old(views) && inputs == old(inputs) && labels == old(labels)
          invariant objects == old(objects) && editThread == old(editThread)
        {
          if views[idx] == w {
            assert FirstIndex(views, w) == idx by {
              FirstIndexAt(views, w, idx);
            }
            views := views[..n][idx := views[n]];
            return;
          }
          assert views[..idx + 1] == views[..idx] + [views[idx]];
          idx := idx + 1;
        }
        assert views[..idx] == views;
        FirstIndexAt(views, w, |views|);
      }
    }

    /** `start_editing`: refused while a job runs, and refused when there
        are no frames or no labels; otherwise a job action whose
        configuration succeeds becomes the running job, a window action
        opens its window, and any other sender does nothing. */
    method StartEditing(action: Action, configured: bool) returns (outcome: EditOutcome)
      modifies this
      ensures inputs == old(inputs) && labels == old(labels) && objects == old(objects) && views == old(views)
      ensures old(editThread).Some? ==> outcome == Busy
      ensures old(editThread).None? && (inputs == [] || labels == []) ==> outcome == NoInputs
      ensures outcome == Busy || outcome == NoInputs ==> editThread == old(editThread)
      ensures old(editThread).None? && inputs != [] && labels != [] ==>
                outcome == (if action == OtherAction then Ignored
                            else if !configured then MissingConfigure
                            else if IsJob(action) then Started else Opened)
      ensures editThread == if outcome == Started then Some(action) else old(editThread)
    {
      if editThread.Some? {
        return Busy;
      }
      if inputs == [] || labels == [] {
        return NoInputs;
      }
      if action == OtherAction {
        return Ignored;
      }
      if !configured {
        return MissingConfigure;
      }
      if IsJob(action) {
        editThread := Some(action);
        return Started;
      }
      return Opened;
    }

    /** `finish_editing`: the job's name is read before the check, so a job
        must be present; it is then stopped and cleared. */
    method FinishEditing()
      requires editThread.Some?
      modifies this
      ensures editThread == None
      ensures inputs == old(inputs) && labels == old(labels) && objects == old(objects) && views == old(views)
    {
      editThread := None;
    }
  }

  /** FirstIndex found by a scan: i is the first occurrence, or |views| when
      w does not occur. */
  lemma {:induction false} FirstIndexAt(views: seq<nat>, w: nat, i: nat)
    requires i <= |views| && w !in views[..i] && (i < |views| ==> views[i] == w)
    ensures FirstIndex(views, w) == i
  {
    if views != [] && i > 0 {
      assert views[0] == views[..i][0];
      assert views[1..][..i - 1] == views[1..i];
      assert views[1..i] == views[..i][1..];
      FirstIndexAt(views[1..], w, i - 1);
    }
  }
}
