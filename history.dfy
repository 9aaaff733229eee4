/** The display list and the redo stack as values: the sketchpad's `lines` and
    `redoStack`, both used as stacks at their ends. */
module History {
  import opened Seqs

  /** `s` read from its last element to its first. */
  function Reverse<M>(s: seq<M>): (r: seq<M>)
    ensures |r| == |s|
  {
    if s == [] then [] else [s[|s| - 1]] + Reverse(s[..|s| - 1])
  }

  /** Reading `s` backwards: position `i` of the reversal holds the `i`-th
      element from the end. */
  lemma {:induction false} ReverseAt<M>(s: seq<M>)
    ensures forall i | 0 <= i < |s| :: Reverse(s)[i] == s[|s| - 1 - i]
    decreases |s|
  {
    if s != [] {
      ReverseAt(s[..|s| - 1]);
    }
  }

  /** No element occurs twice. */
  ghost predicate Distinct<M>(s: seq<M>)
  {
    forall i, j | 0 <= i < j < |s| :: s[i] != s[j]
  }

  datatype History<M> = History(lines: seq<M>, redo: seq<M>)
  {
    /** Every mark drawn and not cleared, in drawing order: the display list
        followed by the redo stack from its top down. Undo and redo only move
        the boundary between the two parts. */
    function Timeline(): seq<M>
    {
      lines + Reverse(redo)
    }

    /** Mousedown: the new mark goes on the display list; the redo stack is
        left as it is. */
    function Push(m: M): History<M>
    {
      History(lines + [m], redo)
    }

    /** The Undo button: pop the display list onto the redo stack. */
    function Undo(): (r: History<M>)
      ensures r.Timeline() == Timeline()
      ensures |r.lines| == if lines == [] then 0 else |lines| - 1
      ensures lines == [] ==> r == this
    {
      if |lines| > 0 then History(lines[..|lines| - 1], redo + [lines[|lines| - 1]]) else this
    }

    /** The Redo button: pop the redo stack back onto the display list. */
    function Redo(): (r: History<M>)
      ensures r.Timeline() == Timeline()
      ensures |r.lines| == if redo == [] then |lines| else |lines| + 1
      ensures redo == [] ==> r == this
    {
      if |redo| > 0 then History(lines + [redo[|redo| - 1]], redo[..|redo| - 1]) else this
    }
  }

  /** `k` presses of Undo. */
  function UndoTimes<M>(h: History<M>, k: nat): History<M>
    decreases k
  {
    if k == 0 then h else UndoTimes(h.Undo(), k - 1)
  }

  /** A history is fixed by its timeline and the length of its display list. */
  lemma TimelineDetermines<M>(h: History<M>, g: History<M>)
    requires h.Timeline() == g.Timeline() && |h.lines| == |g.lines|
    ensures h == g
  {
    assert h.lines == h.Timeline()[..|h.lines|];
    assert g.lines == g.Timeline()[..|g.lines|];
    var rh, rg := Reverse(h.redo), Reverse(g.redo);
    ReverseAt(h.redo);
    ReverseAt(g.redo);
    assert rh == h.Timeline()[|h.lines|..];
    assert rg == g.Timeline()[|g.lines|..];
    assert |h.redo| == |g.redo|;
    forall i | 0 <= i < |h.redo| ensures h.redo[i] == g.redo[i] {
      var j := |h.redo| - 1 - i;
      assert rh[j] == h.redo[i];
      assert rg[j] == g.redo[i];
    }
  }

  /** Undo then Redo restores both stacks exactly. */
  lemma UndoThenRedo<M>(h: History<M>)
    requires h.lines != []
    ensures h.Undo().Redo() == h
  {
    TimelineDetermines(h.Undo().Redo(), h);
  }

  /** Redo then Undo restores both stacks exactly. */
  lemma RedoThenUndo<M>(h: History<M>)
    requires h.redo != []
    ensures h.Redo().Undo() == h
  {
    TimelineDetermines(h.Redo().Undo(), h);
  }

  /** Undo pressed k times, k at most the display list's length: the last k
      marks leave the display list and the redo stack gains them in reverse
      drawing order, so the earliest of them ends on top. */
  lemma {:induction false} UndoTimesMovesSuffix<M>(h: History<M>, k: nat)
    requires k <= |h.lines|
    decreases k
    ensures UndoTimes(h, k) == Suffixed(h, k)
  {
    if k == 0 {
      var n := |h.lines|;
      assert h.lines[..n] == h.lines;
      assert h.lines[n..] == [];
      assert h.redo + [] == h.redo;
    } else {
      UndoTimesMovesSuffix(h.Undo(), k - 1);
      SuffixedStep(h, k);
    }
  }

  /** The history with the last `k` marks of the display list moved, in
      reverse, onto the redo stack. */
  function Suffixed<M>(h: History<M>, k: nat): History<M>
    requires k <= |h.lines|
  {
    History(h.lines[..|h.lines| - k], h.redo + Reverse(h.lines[|h.lines| - k..]))
  }

  /** Moving `k` marks is moving the last one, then `k - 1` more. */
  lemma SuffixedStep<M>(h: History<M>, k: nat)
    requires 1 <= k <= |h.lines|
    ensures Suffixed(h.Undo(), k - 1) == Suffixed(h, k)
  {
    var n, u := |h.lines|, h.Undo();
    var last := h.lines[n - 1];
    assert u.lines == h.lines[..n - 1] && u.redo == h.redo + [last];
    assert u.lines[..n - 1 - (k - 1)] == h.lines[..n - k];
    var middle := u.lines[n - 1 - (k - 1)..];
    assert h.lines[n - k..] == middle + [last];
    ReverseSnoc(middle, last);
    ConcatAssoc(h.redo, [last], Reverse(middle));
  }

  /** Reversing after appending puts the appended element first. */
  lemma ReverseSnoc<M>(s: seq<M>, x: M)
    ensures Reverse(s + [x]) == [x] + Reverse(s)
  {
    assert (s + [x])[..|s|] == s;
  }

  /** Drawing after an undo keeps the redo stack, so a redo then re-appends
      the undone mark after the new one. */
  lemma RedoAfterPush<M>(h: History<M>, m: M)
    requires h.redo != []
    ensures h.Push(m).redo == h.redo
    ensures h.Push(m).Redo().lines == h.lines + [m, h.redo[|h.redo| - 1]]
  {
    assert h.lines + [m] + [h.redo[|h.redo| - 1]] == h.lines + [m, h.redo[|h.redo| - 1]];
  }

  /** A mark absent from a repetition-free sequence can be inserted anywhere
      without creating a repetition. */
  lemma DistinctInsert<M>(a: seq<M>, x: M, b: seq<M>)
    requires Distinct(a + b) && x !in a && x !in b
    ensures Distinct(a + [x] + b)
  {
    var s, t := a + [x] + b, a + b;
    forall i, j | 0 <= i < j < |s| ensures s[i] != s[j] {
      if j < |a| {
        assert s[i] == t[i] && s[j] == t[j];
      } else if j == |a| {
        assert s[i] == a[i];
      } else if i == |a| {
        assert s[j] == b[j - |a| - 1];
      } else if i < |a| {
        assert s[i] == t[i] && s[j] == t[j - 1];
      } else {
        assert s[i] == t[i - 1] && s[j] == t[j - 1];
      }
    }
  }

  /** Undo, redo and pushing a new mark keep every mark in at most one place. */
  lemma DistinctPreserved<M>(h: History<M>, m: M)
    requires Distinct(h.Timeline())
    ensures Distinct(h.Undo().Timeline()) && Distinct(h.Redo().Timeline())
    ensures m !in h.lines && m !in h.redo ==> Distinct(h.Push(m).Timeline())
  {
    if m !in h.lines && m !in h.redo {
      ReverseAt(h.redo);
      assert m !in Reverse(h.redo);
      DistinctInsert(h.lines, m, Reverse(h.redo));
    }
  }
}
