/**
 * The drawing board's undo history (project/src/components/DrawingBoard.tsx,
 * lines 16-17, 47-51, 69-97 and 270, 277): a list of snapshots and a cursor
 * into it, as values.  The board's state is `history` and `historyIndex`; a
 * fresh board has no snapshot and the cursor at -1.
 */
module History {

  datatype Timeline<S> = Timeline(entries: seq<S>, cursor: int)

  /** The cursor is -1 exactly when there is no entry, and otherwise points at an entry. */
  predicate Valid<S>(t: Timeline<S>)
  {
    -1 <= t.cursor < |t.entries| && (t.cursor == -1 <==> t.entries == [])
  }

  /** The state before the first snapshot: history [] and historyIndex -1. */
  function Empty<S>(): (t: Timeline<S>)
    ensures Valid(t) && t.entries == []
  {
    Timeline([], -1)
  }

  /** The snapshot the cursor points at, which undo and redo display. */
  function Current<S>(t: Timeline<S>): S
    requires Valid(t) && t.cursor >= 0
  {
    t.entries[t.cursor]
  }

  /** The undo button is enabled unless historyIndex <= 0. */
  predicate CanUndo<S>(t: Timeline<S>)
  {
    t.cursor > 0
  }

  /** The redo button is enabled unless historyIndex >= history.length - 1. */
  predicate CanRedo<S>(t: Timeline<S>)
  {
    t.cursor < |t.entries| - 1
  }

  /**
   * saveState: keep the entries up to the cursor, drop every later one, append the new
   * snapshot and point the cursor at it.
   */
  function Push<S>(t: Timeline<S>, s: S): (r: Timeline<S>)
    requires Valid(t)
    ensures Valid(r)
    ensures |r.entries| == t.cursor + 2 && r.cursor == t.cursor + 1
    ensures forall i :: 0 <= i <= t.cursor ==> r.entries[i] == t.entries[i]
    ensures Current(r) == s
    ensures !CanRedo(r) && CanUndo(r) == (t.cursor >= 0)
  {
    var kept := t.entries[..t.cursor + 1] + [s];
    Timeline(kept, |kept| - 1)
  }

  /** undo: step the cursor back when it is above 0; otherwise nothing happens. */
  function Undo<S>(t: Timeline<S>): (r: Timeline<S>)
    requires Valid(t)
    ensures Valid(r) && r.entries == t.entries
    ensures CanUndo(t) ==> r.cursor == t.cursor - 1 && CanRedo(r)
    ensures !CanUndo(t) ==> r == t
  {
    if t.cursor > 0 then Timeline(t.entries, t.cursor - 1) else t
  }

  /** redo: step the cursor forward when it is below the last entry; otherwise nothing happens. */
  function Redo<S>(t: Timeline<S>): (r: Timeline<S>)
    requires Valid(t)
    ensures Valid(r) && r.entries == t.entries
    ensures CanRedo(t) ==> r.cursor == t.cursor + 1 && CanUndo(r)
    ensures !CanRedo(t) ==> r == t
  {
    if t.cursor < |t.entries| - 1 then Timeline(t.entries, t.cursor + 1) else t
  }

  /** The history a successful resize seeds: the blank canvas alone, cursor 0. */
  function Reset<S>(s: S): (r: Timeline<S>)
    ensures Valid(r) && |r.entries| == 1 && Current(r) == s
    ensures !CanUndo(r) && !CanRedo(r)
  {
    Timeline([s], 0)
  }

  /** Each button is enabled exactly when pressing it would change the history. */
  lemma ButtonsEnabledIffEffective<S>(t: Timeline<S>)
    requires Valid(t)
    ensures CanUndo(t) <==> Undo(t) != t
    ensures CanRedo(t) <==> Redo(t) != t
  {
  }

  /** An undo is exactly reverted by a redo. */
  lemma UndoThenRedo<S>(t: Timeline<S>)
    requires Valid(t) && CanUndo(t)
    ensures Redo(Undo(t)) == t
  {
  }

  /** A redo is exactly reverted by an undo. */
  lemma RedoThenUndo<S>(t: Timeline<S>)
    requires Valid(t) && CanRedo(t)
    ensures Undo(Redo(t)) == t
  {
  }

  // ---------------------------------------------------------------------
  // Sequences of commits, undos and redos

  /** Commit each snapshot of xs in turn, as a sequence of completed gestures does. */
  function PushAll<S>(t: Timeline<S>, xs: seq<S>): (r: Timeline<S>)
    requires Valid(t)
    ensures Valid(r)
    decreases |xs|
  {
    if xs == [] then t else PushAll(Push(t, xs[0]), xs[1..])
  }

  function UndoN<S>(t: Timeline<S>, k: nat): (r: Timeline<S>)
    requires Valid(t)
    ensures Valid(r)
    decreases k
  {
    if k == 0 then t else UndoN(Undo(t), k - 1)
  }

  function RedoN<S>(t: Timeline<S>, k: nat): (r: Timeline<S>)
    requires Valid(t)
    ensures Valid(r)
    decreases k
  {
    if k == 0 then t else RedoN(Redo(t), k - 1)
  }

  /**
   * n > 0 commits keep the entries up to the cursor, drop the later ones and append the n
   * snapshots after them, with the cursor on the last.
   */
  lemma {:induction false} PushAllAppends<S>(t: Timeline<S>, xs: seq<S>)
    requires Valid(t) && xs != []
    ensures PushAll(t, xs) == Timeline(t.entries[..t.cursor + 1] + xs, t.cursor + |xs|)
    decreases |xs|
  {
    var t' := Push(t, xs[0]);
    if xs[1..] == [] {
      assert xs == [xs[0]];
    } else {
      PushAllAppends(t', xs[1..]);
    }
    assert t'.entries[..t'.cursor + 1] == t.entries[..t.cursor + 1] + [xs[0]];
    assert t.entries[..t.cursor + 1] + [xs[0]] + xs[1..] == t.entries[..t.cursor + 1] + xs;
  }

  /** k undos from cursor c >= k move the cursor to c - k and keep every entry. */
  lemma {:induction false} UndoNSteps<S>(t: Timeline<S>, k: nat)
    requires Valid(t) && k <= t.cursor
    ensures UndoN(t, k) == Timeline(t.entries, t.cursor - k)
    decreases k
  {
    if k > 0 {
      UndoNSteps(Undo(t), k - 1);
    }
  }

  /** k redos with k entries ahead of the cursor move the cursor forward by k. */
  lemma {:induction false} RedoNSteps<S>(t: Timeline<S>, k: nat)
    requires Valid(t) && t.cursor + k <= |t.entries| - 1
    ensures RedoN(t, k) == Timeline(t.entries, t.cursor + k)
    decreases k
  {
    if k > 0 {
      RedoNSteps(Redo(t), k - 1);
    }
  }

  /**
   * Undo/redo round trip: after n committed gestures, n undos display the snapshot that was
   * current before them, and n redos then restore the final history exactly.
   */
  lemma CommitsUndoneAndRedone<S>(t: Timeline<S>, xs: seq<S>)
    requires Valid(t) && t.cursor >= 0
    ensures var after := PushAll(t, xs);
      var undone := UndoN(after, |xs|);
      undone.cursor == t.cursor && Current(undone) == Current(t) &&
      RedoN(undone, |xs|) == after
  {
    var after := PushAll(t, xs);
    if xs == [] {
      return;
    }
    PushAllAppends(t, xs);
    UndoNSteps(after, |xs|);
    var undone := UndoN(after, |xs|);
    assert undone.entries[t.cursor] == (t.entries[..t.cursor + 1] + xs)[t.cursor];
    RedoNSteps(undone, |xs|);
  }

  /**
   * History truncation: undoing k steps and then committing discards the k undone entries,
   * so redo is unavailable until the next undo.
   */
  lemma UndoThenCommitPrunes<S>(t: Timeline<S>, k: nat, s: S)
    requires Valid(t) && k <= t.cursor
    ensures var r := Push(UndoN(t, k), s);
      r.entries == t.entries[..t.cursor - k + 1] + [s] && !CanRedo(r)
  {
    UndoNSteps(t, k);
  }
}
