/** The windowing step of the streaming pipeline: a flag that says whether the
    stream is inside a streamed tool call cuts the decoded chunks into windows.
    Everything here holds for ANY start and finish predicates. */
module ToolWindows {

  /** The concatenation of the windows, in order. */
  function Flatten<T>(ws: seq<seq<T>>): seq<T>
    decreases |ws|
  {
    if ws == [] then [] else ws[0] + Flatten(ws[1..])
  }

  /** What happens to the flag and the current window when one chunk arrives. */
  datatype Decision = Decision(closes: bool, insideTool: bool)

  /** One chunk through the detection map (set the flag on a start chunk) and
      the windowUntil predicate (clear it on a finish chunk, otherwise close
      the window exactly when the flag is down). */
  function Advance<C>(inside: bool, c: C, isStart: C -> bool, isFinish: C -> bool): (d: Decision)
    // the flag is down again exactly when the chunk closes its window
    ensures d.insideTool == !d.closes
    // the flag goes up only on a start chunk, and down only on a finish chunk
    ensures !inside && d.insideTool ==> isStart(c)
    ensures inside && !d.insideTool ==> isFinish(c)
    // outside a tool call, an ordinary chunk closes a window at once
    ensures !inside && !isStart(c) ==> d.closes
    // inside a tool call (or on its start chunk) only a finish chunk closes it
    ensures inside || isStart(c) ==> (d.closes <==> isFinish(c))
  {
    var flag := inside || isStart(c);
    if flag && isFinish(c) then Decision(true, false)
    else Decision(!flag, flag)
  }

  /** The windows produced for the chunks cs when the flag is currently
      inside and the window being filled already holds open.  At the end of
      the stream a non-empty open window is emitted as the last one. */
  function Windowed<C>(cs: seq<C>, inside: bool, open: seq<C>, isStart: C -> bool, isFinish: C -> bool)
    : (ws: seq<seq<C>>)
    // nothing is dropped, duplicated or reordered, and no window is empty
    ensures Flatten(ws) == open + cs
    ensures forall k :: 0 <= k < |ws| ==> ws[k] != []
    decreases |cs|
  {
    if cs == [] then (if open == [] then [] else [open])
    else
      var d := Advance(inside, cs[0], isStart, isFinish);
      assert open + [cs[0]] + cs[1..] == open + cs;
      if d.closes then
        var rest := Windowed(cs[1..], d.insideTool, [], isStart, isFinish);
        assert ([open + [cs[0]]] + rest)[1..] == rest;
        assert [] + cs[1..] == cs[1..];
        [open + [cs[0]]] + rest
      else Windowed(cs[1..], d.insideTool, open + [cs[0]], isStart, isFinish)
  }

  /** The length of a tool-call window that begins at cs[0]: up to and
      including the first chunk (cs[0] itself included) that satisfies
      isFinish, or all of cs when none does. */
  function UpToFinish<C>(cs: seq<C>, isFinish: C -> bool): (n: nat)
    ensures n <= |cs| && (cs != [] ==> 1 <= n)
    ensures forall j :: 0 <= j < n - 1 ==> !isFinish(cs[j])
    ensures n < |cs| ==> isFinish(cs[n - 1])
    decreases |cs|
  {
    if cs == [] then 0
    else if isFinish(cs[0]) then 1
    else 1 + UpToFinish(cs[1..], isFinish)
  }

  /** The conditions a window w must meet: it is not empty; if it does not
      begin with a start chunk it is that one chunk alone; if it does, no
      chunk before its last one is a finish chunk, and its last chunk is one
      unless the stream ended inside the tool call (last window). */
  predicate WellShaped<C>(w: seq<C>, last: bool, isStart: C -> bool, isFinish: C -> bool)
  {
    && w != []
    && (!isStart(w[0]) ==> |w| == 1)
    && (isStart(w[0]) ==>
          && (forall j :: 0 <= j < |w| - 1 ==> !isFinish(w[j]))
          && (last || isFinish(w[|w| - 1])))
  }

  /** ws splits cs into well-shaped windows: nothing dropped, duplicated or
      reordered. */
  ghost predicate IsToolPartition<C>(ws: seq<seq<C>>, cs: seq<C>, isStart: C -> bool, isFinish: C -> bool)
  {
    && Flatten(ws) == cs
    && forall k :: 0 <= k < |ws| ==> WellShaped(ws[k], k == |ws| - 1, isStart, isFinish)
  }

  /** Reference definition of the windows, one window at a time. */
  function Windows<C>(cs: seq<C>, isStart: C -> bool, isFinish: C -> bool): seq<seq<C>>
    decreases |cs|
  {
    if cs == [] then []
    else
      var n := if isStart(cs[0]) then UpToFinish(cs, isFinish) else 1;
      [cs[..n]] + Windows(cs[n..], isStart, isFinish)
  }

  lemma FlattenNonEmpty<T>(ws: seq<seq<T>>)
    requires ws != [] && ws[0] != []
    ensures Flatten(ws) != []
  {
  }

  /** The first reference window is well shaped; it is the last one exactly
      when it takes all of the chunks. */
  lemma FirstWindowWellShaped<C>(cs: seq<C>, isStart: C -> bool, isFinish: C -> bool)
    requires cs != []
    ensures var n := if isStart(cs[0]) then UpToFinish(cs, isFinish) else 1;
            WellShaped(cs[..n], n == |cs|, isStart, isFinish)
  {
  }

  /** The reference windows split the chunks into well-shaped windows. */
  lemma {:induction false} WindowsIsToolPartition<C>(cs: seq<C>, isStart: C -> bool, isFinish: C -> bool)
    ensures IsToolPartition(Windows(cs, isStart, isFinish), cs, isStart, isFinish)
    decreases |cs|
  {
    if cs != [] {
      var n := if isStart(cs[0]) then UpToFinish(cs, isFinish) else 1;
      var rest := Windows(cs[n..], isStart, isFinish);
      var ws := Windows(cs, isStart, isFinish);
      WindowsIsToolPartition(cs[n..], isStart, isFinish);
      FirstWindowWellShaped(cs, isStart, isFinish);
      assert ws == [cs[..n]] + rest;
      assert ws[1..] == rest;
      assert Flatten(ws) == cs[..n] + cs[n..] == cs;
      assert (rest == []) == (n == |cs|) by {
        if rest != [] {
          FlattenNonEmpty(rest);
        }
      }
      forall k | 1 <= k < |ws|
        ensures WellShaped(ws[k], k == |ws| - 1, isStart, isFinish)
      {
        assert ws[k] == rest[k - 1];
      }
    }
  }

  /** A window length that meets the tool-window conditions is UpToFinish. */
  lemma UpToFinishExact<C>(cs: seq<C>, m: nat, isFinish: C -> bool)
    requires 1 <= m <= |cs|
    requires forall j :: 0 <= j < m - 1 ==> !isFinish(cs[j])
    requires m == |cs| || isFinish(cs[m - 1])
    ensures UpToFinish(cs, isFinish) == m
  {
  }

  /** The reference windows are the ONLY well-shaped split of the chunks. */
  lemma {:induction false} ToolPartitionUnique<C>(ws: seq<seq<C>>, cs: seq<C>, isStart: C -> bool, isFinish: C -> bool)
    requires IsToolPartition(ws, cs, isStart, isFinish)
    ensures ws == Windows(cs, isStart, isFinish)
    decreases |ws|
  {
    if ws != [] {
      var w := ws[0];
      assert WellShaped(w, 0 == |ws| - 1, isStart, isFinish);
      assert cs == w + Flatten(ws[1..]);
      var m := |w|;
      assert cs[..m] == w && cs[m..] == Flatten(ws[1..]);
      assert cs[0] == w[0];
      if isStart(cs[0]) {
        if |ws| > 1 {
          assert WellShaped(ws[1], 1 == |ws| - 1, isStart, isFinish);
          FlattenNonEmpty(ws[1..]);
        }
        forall j | 0 <= j < m - 1 ensures !isFinish(cs[j]) {
          assert cs[j] == w[j];
        }
        UpToFinishExact(cs, m, isFinish);
      }
      forall k | 0 <= k < |ws| - 1
        ensures WellShaped(ws[1..][k], k == |ws[1..]| - 1, isStart, isFinish)
      {
        assert ws[1..][k] == ws[k + 1];
      }
      ToolPartitionUnique(ws[1..], cs[m..], isStart, isFinish);
      assert ws == [w] + ws[1..];
    }
  }

  /** Inside a tool call, with a non-empty window open, the flag machine keeps
      the window open up to and including the first finish chunk. */
  lemma {:induction false} InsideToolWindow<C>(cs: seq<C>, open: seq<C>, isStart: C -> bool, isFinish: C -> bool)
    requires open != []
    ensures Windowed(cs, true, open, isStart, isFinish) ==
              if cs == [] then [open]
              else [open + cs[..UpToFinish(cs, isFinish)]]
                   + Windowed(cs[UpToFinish(cs, isFinish)..], false, [], isStart, isFinish)
    decreases |cs|
  {
    if cs != [] && !isFinish(cs[0]) {
      var tail := cs[1..];
      InsideToolWindow(tail, open + [cs[0]], isStart, isFinish);
      assert Windowed(cs, true, open, isStart, isFinish) == Windowed(tail, true, open + [cs[0]], isStart, isFinish);
      if tail != [] {
        var m := UpToFinish(tail, isFinish);
        assert UpToFinish(cs, isFinish) == 1 + m;
        assert open + [cs[0]] + tail[..m] == open + cs[..1 + m];
        assert tail[m..] == cs[1 + m..];
      } else {
        assert UpToFinish(cs, isFinish) == 1;
        assert cs[..1] == cs && cs[1..] == [];
        assert Windowed(cs, true, open, isStart, isFinish) == [open + [cs[0]]];
        assert Windowed(cs[1..], false, [], isStart, isFinish) == [];
        assert open + cs[..1] == open + [cs[0]];
        assert [open + cs[..1]] + Windowed(cs[1..], false, [], isStart, isFinish) == [open + [cs[0]]];
      }
    } else if cs != [] {
      assert cs[..1] == [cs[0]];
    }
  }

  /** A start chunk that does not also finish opens a window that the flag
      machine keeps open up to the first finish chunk. */
  lemma StartChunkWindow<C>(cs: seq<C>, isStart: C -> bool, isFinish: C -> bool)
    requires cs != [] && isStart(cs[0]) && !isFinish(cs[0])
    ensures Windowed(cs, false, [], isStart, isFinish)
            == [cs[..UpToFinish(cs, isFinish)]] + Windowed(cs[UpToFinish(cs, isFinish)..], false, [], isStart, isFinish)
  {
    var tail := cs[1..];
    var n := UpToFinish(cs, isFinish);
    InsideToolWindow(tail, [cs[0]], isStart, isFinish);
    assert [] + [cs[0]] == [cs[0]];
    assert Windowed(cs, false, [], isStart, isFinish) == Windowed(tail, true, [cs[0]], isStart, isFinish);
    if tail != [] {
      var m := UpToFinish(tail, isFinish);
      assert n == 1 + m;
      assert [cs[0]] + tail[..m] == cs[..n];
      assert tail[m..] == cs[n..];
    } else {
      assert n == 1;
      assert cs[..n] == [cs[0]] && cs[n..] == [];
      assert Windowed(cs[n..], false, [], isStart, isFinish) == [];
    }
  }

  /** The flag machine of the source, started with the flag down and no window
      open, produces exactly the reference windows. */
  lemma {:induction false} FlagMachineMatchesReference<C>(cs: seq<C>, isStart: C -> bool, isFinish: C -> bool)
    ensures Windowed(cs, false, [], isStart, isFinish) == Windows(cs, isStart, isFinish)
    decreases |cs|
  {
    if cs != [] {
      var n := if isStart(cs[0]) then UpToFinish(cs, isFinish) else 1;
      FlagMachineMatchesReference(cs[n..], isStart, isFinish);
      if isStart(cs[0]) && !isFinish(cs[0]) {
        StartChunkWindow(cs, isStart, isFinish);
      } else {
        assert [] + [cs[0]] == cs[..1];
      }
    }
  }

  /** The windowing loop of the pipeline: the flag starts down, each chunk
      first may raise it (start chunk), then decides whether the current
      window closes after it; a window still open when the stream ends is
      emitted last. */
  method WindowUntilToolFinish<C>(chunks: seq<C>, isStart: C -> bool, isFinish: C -> bool)
    returns (windows: seq<seq<C>>)
    ensures windows == Windows(chunks, isStart, isFinish)
    ensures IsToolPartition(windows, chunks, isStart, isFinish)
  {
    var insideTool := false;
    var open: seq<C> := [];
    windows := [];
    for i := 0 to |chunks|
      invariant insideTool == (open != [])
      invariant windows + Windowed(chunks[i..], insideTool, open, isStart, isFinish)
                == Windowed(chunks, false, [], isStart, isFinish)
    {
      var chunk := chunks[i];
      assert chunks[i..][1..] == chunks[i + 1..];
      if isStart(chunk) {
        insideTool := true;
      }
      var closes: bool;
      if insideTool && isFinish(chunk) {
        insideTool := false;
        closes := true;
      } else {
        closes := !insideTool;
      }
      open := open + [chunk];
      if closes {
        windows := windows + [open];
        open := [];
      }
    }
    if open != [] {
      windows := windows + [open];
    }
    FlagMachineMatchesReference(chunks, isStart, isFinish);
    WindowsIsToolPartition(chunks, isStart, isFinish);
  }

  /** A stream without any start chunk is cut into one window per chunk. */
  lemma {:induction false} NoStartChunksGiveSingletons<C>(cs: seq<C>, isStart: C -> bool, isFinish: C -> bool)
    requires forall i :: 0 <= i < |cs| ==> !isStart(cs[i])
    ensures |Windows(cs, isStart, isFinish)| == |cs|
    ensures forall i :: 0 <= i < |cs| ==> Windows(cs, isStart, isFinish)[i] == [cs[i]]
    decreases |cs|
  {
    if cs != [] {
      var rest := Windows(cs[1..], isStart, isFinish);
      NoStartChunksGiveSingletons(cs[1..], isStart, isFinish);
      assert Windows(cs, isStart, isFinish) == [cs[..1]] + rest;
      assert cs[..1] == [cs[0]];
      forall i | 1 <= i < |cs|
        ensures Windows(cs, isStart, isFinish)[i] == [cs[i]]
      {
        assert rest[i - 1] == [cs[1..][i - 1]];
      }
    }
  }

  /** A plain chunk, a tool call in three chunks (start, continuation, finish)
      and another plain chunk give three windows. */
  lemma PlainToolPlainWindows<C>(a: C, b: C, c: C, d: C, e: C, isStart: C -> bool, isFinish: C -> bool)
    requires !isStart(a) && isStart(b) && !isFinish(b) && !isFinish(c) && isFinish(d) && !isStart(e)
    ensures Windows([a, b, c, d, e], isStart, isFinish) == [[a], [b, c, d], [e]]
  {
    var ws := [[a], [b, c, d], [e]];
    assert Flatten(ws[2..]) == [e] + Flatten(ws[3..]);
    assert Flatten(ws[1..]) == [b, c, d] + Flatten(ws[2..]);
    assert Flatten(ws) == [a] + Flatten(ws[1..]);
    assert WellShaped(ws[1], false, isStart, isFinish);
    ToolPartitionUnique(ws, [a, b, c, d, e], isStart, isFinish);
  }
}
