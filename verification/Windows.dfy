/** Sliding windows over a long article, sized for the embedding server. */
module Windows {
  import opened Strip

  const MAX_CHARS := 450
  const OVERLAP := 64

  function Max(a: int, b: int): int {
    if a < b then b else a
  }

  /** A Python slice bound: negative counts from the end, and out of range is clipped. */
  function Bound(n: nat, i: int): (b: nat)
    ensures b <= n
  {
    if i < 0 then Max(0, n + i) else if i > n then n else i
  }

  function Slice(s: string, i: int, j: int): string {
    if Bound(|s|, i) <= Bound(|s|, j) then s[Bound(|s|, i)..Bound(|s|, j)] else ""
  }

  /** The windows from `start` on; the one that reaches the end is the last. */
  function From(text: string, max: int, step: int, start: nat): seq<string>
    requires step >= 1
    decreases |text| - start
  {
    if start >= |text| then []
    else if start + max >= |text| then [Slice(text, start, start + max)]
    else [Slice(text, start, start + max)] + From(text, max, step, start + step)
  }

  function Step(max: int, overlap: int): (step: int)
    ensures step >= 1
  {
    Max(1, max - overlap)
  }

  function Split(text: string, max: int, overlap: int): seq<string> {
    var trimmed := Trim(text);
    if |trimmed| <= max then (if trimmed != "" then [trimmed] else [])
    else From(trimmed, max, Step(max, overlap), 0)
  }

  lemma FromNext(text: string, max: int, step: int, done: seq<string>, start: nat)
    requires step >= 1 && start < |text|
    ensures From(text, max, step, start) == [Slice(text, start, start + max)] +
            (if start + max >= |text| then [] else From(text, max, step, start + step))
    ensures done + From(text, max, step, start) == (done + [Slice(text, start, start + max)]) +
            (if start + max >= |text| then [] else From(text, max, step, start + step))
  {
    hide Slice;
  }

  /** The loop with its early break. */
  method SplitWindows(text: string, max: int, overlap: int) returns (windows: seq<string>)
    ensures windows == Split(text, max, overlap)
  {
    hide Slice, From, Trim;
    var trimmed := Trim(text);
    if |trimmed| <= max {
      return if trimmed != "" then [trimmed] else [];
    }
    var step := Max(1, max - overlap);
    windows := [];
    var start := 0;
    while start < |trimmed|
      invariant start >= 0 && From(trimmed, max, step, 0) == windows + From(trimmed, max, step, start)
      decreases |trimmed| - start
    {
      FromNext(trimmed, max, step, windows, start);
      windows := windows + [Slice(trimmed, start, start + max)];
      if start + max >= |trimmed| { return; }
      start := start + step;
    }
    FromEnd(trimmed, max, step, start);
    assert windows + [] == windows;
  }

  lemma FromEnd(text: string, max: int, step: int, start: nat)
    requires step >= 1 && start >= |text|
    ensures From(text, max, step, start) == []
  {
  }

  // ---- what the windows are ------------------------------------------------

  lemma SliceIs(s: string, start: nat, max: int)
    requires start < |s| && max >= 1
    ensures Slice(s, start, start + max) == s[start..if start + max >= |s| then |s| else start + max]
  {
  }

  /** Every window is within the cap and not empty, and all but the last are full. */
  lemma {:induction false} FromWithinCap(text: string, max: int, step: int, start: nat)
    requires step >= 1 && max >= 1 && start < |text|
    ensures var w := From(text, max, step, start);
            && w != [] && (forall i :: 0 <= i < |w| ==> 1 <= |w[i]| <= max)
            && (step <= max ==> forall i :: 0 <= i < |w| - 1 ==> |w[i]| == max)
    decreases |text| - start
  {
    hide Slice;
    SliceIs(text, start, max);
    if start + max < |text| && start + step < |text| { FromWithinCap(text, max, step, start + step); }
  }

  /** Main result: with a positive cap, every window is within it; a text within the cap is its own
  only window, and a blank one has none. */
  lemma WindowsWithinCap(text: string, max: int, overlap: int)
    requires max >= 1
    ensures var w := Split(text, max, overlap);
            && (forall i :: 0 <= i < |w| ==> 1 <= |w[i]| <= max)
            && (w == [] <==> Trim(text) == "")
            && (overlap >= 0 ==> forall i :: 0 <= i < |w| - 1 ==> |w[i]| == max)
  {
    hide Trim, From, Slice;
    if |Trim(text)| > max { FromWithinCap(Trim(text), max, Step(max, overlap), 0); }
  }

  /** The later windows without the part they share with the one before. */
  function Rebuilt(windows: seq<string>, shared: nat): string {
    if windows == [] then "" else windows[0] + Dropped(windows[1..], shared)
  }

  function Dropped(windows: seq<string>, shared: nat): string {
    if windows == [] then ""
    else (if shared <= |windows[0]| then windows[0][shared..] else "") + Dropped(windows[1..], shared)
  }

  lemma {:induction false} DroppedRest(text: string, max: int, step: int, start: nat)
    requires 1 <= step <= max && start + (max - step) < |text|
    ensures Dropped(From(text, max, step, start), max - step) == text[start + (max - step)..]
    decreases |text| - start
  {
    hide Slice;
    SliceIs(text, start, max);
    var w := From(text, max, step, start);
    assert w[0] == Slice(text, start, start + max);
    if start + max < |text| {
      DroppedRest(text, max, step, start + step);
      assert w[1..] == From(text, max, step, start + step);
      assert text[start + (max - step)..] == text[start..start + max][max - step..] + text[start + max..];
    } else {
      assert w[1..] == [];
      assert text[start + (max - step)..] == text[start..|text|][max - step..];
    }
  }

  /** With a gap between windows, what they hold together is shorter than the text. */
  lemma {:induction false} GapLoses(text: string, max: int, step: int, start: nat)
    requires 1 <= max < step
    ensures |Dropped(From(text, max, step, start), 0)| <= Max(0, |text| - start)
    ensures start + max < |text| ==> |Dropped(From(text, max, step, start), 0)| < |text| - start
    decreases |text| - start
  {
    hide Slice;
    if start < |text| {
      SliceIs(text, start, max);
      var w := From(text, max, step, start);
      assert w[0] == Slice(text, start, start + max);
      if start + max < |text| {
        GapLoses(text, max, step, start + step);
        assert w[1..] == From(text, max, step, start + step);
      } else {
        assert w[1..] == [];
      }
    }
  }

  /** How many characters consecutive full windows share. */
  function Shared(max: int, overlap: int): nat {
    Max(0, max - Step(max, overlap))
  }

  lemma WholeOrGap(w: seq<string>, shared: nat)
    requires w != [] && (shared == 0 || shared <= |w[0]|)
    ensures Rebuilt(w, shared) == w[0][..shared] + Dropped(w, shared)
  {
    assert w[0] == w[0][..shared] + w[0][shared..];
    assert Dropped(w, shared) == w[0][shared..] + Dropped(w[1..], shared);
    hide Dropped;
  }

  /** Main result: dropping the fixed overlap from every later window rebuilds the trimmed text
  exactly when the overlap is not negative or one window is enough. */
  lemma WindowsRebuildText(text: string, max: int, overlap: int)
    requires max >= 1
    ensures Rebuilt(Split(text, max, overlap), Shared(max, overlap)) == Trim(text)
            <==> overlap >= 0 || |Trim(text)| <= max
  {
    hide Trim, Slice;
    var trimmed, step, shared := Trim(text), Step(max, overlap), Shared(max, overlap);
    if |trimmed| > max {
      SliceIs(trimmed, 0, max);
      var w := From(trimmed, max, step, 0);
      assert w[0] == trimmed[0..max];
      WholeOrGap(w, shared);
      if step <= max {
        DroppedRest(trimmed, max, step, 0);
        assert trimmed == w[0][..shared] + trimmed[shared..];
      } else {
        GapLoses(trimmed, max, step, 0);
      }
    }
  }

  /** No window holds only what the one before already holds. */
  lemma {:induction false} NoWindowIsWasted(text: string, max: int, step: int, start: nat)
    requires 1 <= step <= max && start < |text|
    ensures var n := |From(text, max, step, start)|;
            && start + (n - 1) * step + max >= |text|
            && (n > 1 ==> start + (n - 2) * step + max < |text|)
    decreases |text| - start
  {
    hide Slice;
    if start + max < |text| {
      NoWindowIsWasted(text, max, step, start + step);
      var n := |From(text, max, step, start + step)|;
      assert |From(text, max, step, start)| == n + 1;
      assert (n - 1) * step + step == n * step;
      assert n > 1 ==> (n - 2) * step + step == (n - 1) * step;
    }
  }

  /** Main result: a split into several windows has no fewer than it needs: one less would not reach
  the end of the text. */
  lemma LeastWindows(text: string, max: int, overlap: int)
    requires max >= 1 && overlap >= 0 && |Trim(text)| > max
    ensures var n, step := |Split(text, max, overlap)|, Step(max, overlap);
            n >= 2 && (n - 2) * step + max < |Trim(text)| <= (n - 1) * step + max
  {
    hide Trim, From;
    NoWindowIsWasted(Trim(text), max, Step(max, overlap), 0);
    FromTwo(Trim(text), max, Step(max, overlap));
  }

  lemma FromTwo(text: string, max: int, step: int)
    requires 1 <= step <= max < |text|
    ensures |From(text, max, step, 0)| >= 2
  {
    hide Slice;
  }

  /** The constants of the pipeline: every later window adds 386 characters to the one before. */
  lemma PipelineWindows(text: string)
    ensures Rebuilt(Split(text, MAX_CHARS, OVERLAP), OVERLAP) == Trim(text)
    ensures forall i :: 0 <= i < |Split(text, MAX_CHARS, OVERLAP)| ==> |Split(text, MAX_CHARS, OVERLAP)[i]| <= MAX_CHARS
  {
    WindowsRebuildText(text, MAX_CHARS, OVERLAP);
    WindowsWithinCap(text, MAX_CHARS, OVERLAP);
  }
}
