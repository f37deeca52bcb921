/** Sliding-window chunking of a document's words (document_service.chunk_text). */
module Chunking {
  import opened Text

  const CHUNK_SIZE_WORDS: nat := 120
  const CHUNK_OVERLAP_WORDS: nat := 20

  function Stride(size: int, overlap: int): (r: nat)
    ensures r >= 1
    ensures overlap < size ==> size - r == overlap
    ensures 1 <= size && 0 <= overlap ==> r <= size
  {
    if size - overlap > 1 then size - overlap else 1
  }

  /** Windows of `size` words, each `stride` words after the last, until one reaches the end. */
  function Windows(ws: seq<string>, size: nat, stride: nat): seq<seq<string>>
    requires stride >= 1
    decreases |ws|
  {
    if size == 0 || ws == [] then []
    else if |ws| <= size then [ws]
    else [ws[..size]] + if stride <= |ws| then Windows(ws[stride..], size, stride) else []
  }

  function JoinAll(windows: seq<seq<string>>): seq<string> {
    if windows == [] then [] else [Join(windows[0], " ")] + JoinAll(windows[1..])
  }

  /** The slice `words[a:b]`: a negative end counts from the back, and an end past the list is cut short. */
  function Slice(words: seq<string>, a: nat, b: int): seq<string>
    requires a <= |words|
  {
    var e := if b >= 0 then b else b + |words|;
    if e <= a then [] else if e <= |words| then words[a..e] else words[a..]
  }

  /** The non-empty slices that the loop takes from a start position on, for any integer size. */
  function LoopWindows(words: seq<string>, start: nat, size: int, stride: nat): seq<seq<string>>
    requires stride >= 1
    decreases |words| - start
  {
    if start >= |words| then []
    else
      var window := Slice(words, start, start + size);
      (if window != [] then [window] else [])
      + if start + size >= |words| then [] else LoopWindows(words, start + stride, size, stride)
  }

  function Chunks(text: string, size: int, overlap: int): seq<string> {
    JoinAll(LoopWindows(Words(text), 0, size, Stride(size, overlap)))
  }

  lemma WindowsStep(ws: seq<string>, size: nat, stride: nat)
    requires 1 <= stride <= size && ws != []
    ensures Windows(ws, size, stride)
         == if |ws| <= size then [ws] else [ws[..size]] + Windows(ws[stride..], size, stride)
  {}

  lemma JoinAllStep(window: seq<string>, rest: seq<seq<string>>)
    ensures JoinAll([]) == [] && JoinAll([window]) == [Join(window, " ")]
    ensures JoinAll([window] + rest) == [Join(window, " ")] + JoinAll(rest)
  {
    assert JoinAll([]) == [];
    assert ([window] + rest)[1..] == rest;
  }

  lemma LoopStart(words: seq<string>, start: nat, size: int, stride: nat)
    requires stride >= 1
    ensures JoinAll([]) == []
    ensures start >= |words| ==> LoopWindows(words, start, size, stride) == []
    ensures start < |words| ==>
              var window := Slice(words, start, start + size);
              JoinAll(LoopWindows(words, start, size, stride))
              == (if window != [] then [Join(window, " ")] else [])
                 + (if start + size >= |words| then [] else JoinAll(LoopWindows(words, start + stride, size, stride)))
  {
    hide JoinAll, Join, Slice;
    JoinAllOfTwo([], []);
    if start < |words| {
      var window := Slice(words, start, start + size);
      JoinAllOfTwo(if window != [] then [window] else [],
        if start + size >= |words| then [] else LoopWindows(words, start + stride, size, stride));
    }
  }

  method ChunkText(text: string, size: int, overlap: int) returns (chunks: seq<string>, ghost broke: bool)
    ensures chunks == Chunks(text, size, overlap)
    // With a positive size and no negative overlap the range is never exhausted: the loop leaves by its break.
    ensures size >= 1 && overlap >= 0 && Words(text) != [] ==> broke
    ensures size <= 0 ==> !broke
  {
    hide JoinAll, Words, Join, Slice, LoopWindows;
    var words := Words(text);
    chunks, broke := [], false;
    var step := Stride(size, overlap);
    if |words| == 0 {
      LoopStart(words, 0, size, step);
      return;
    }
    var start := 0;
    while start < |words|
      invariant !broke && (size >= 1 && overlap >= 0 ==> start < |words|)
      invariant chunks + JoinAll(LoopWindows(words, start, size, step)) == Chunks(text, size, overlap)
      decreases |words| - start
    {
      var window := Slice(words, start, start + size);
      LoopStart(words, start, size, step);
      if window != [] {
        chunks := chunks + [Join(window, " ")];
      }
      if start + size >= |words| {
        assert chunks == Chunks(text, size, overlap);
        broke := true;
        break;
      }
      start := start + step;
    }
    LoopStart(words, start, size, step);
  }

  lemma JoinAllOfTwo(now: seq<seq<string>>, later: seq<seq<string>>)
    requires |now| <= 1
    ensures JoinAll([]) == []
    ensures JoinAll(now + later) == (if now == [] then [] else [Join(now[0], " ")]) + JoinAll(later)
  {
    hide Join;
    if now == [] {
      assert now + later == later;
    } else {
      assert now == [now[0]];
      JoinAllStep(now[0], later);
    }
  }

  /** For a positive size the loop takes exactly the windows, whatever the stride. */
  lemma {:induction false} LoopIsWindows(words: seq<string>, start: nat, size: nat, stride: nat)
    requires size >= 1 && stride >= 1 && start <= |words|
    ensures LoopWindows(words, start, size, stride) == Windows(words[start..], size, stride)
    decreases |words| - start
  {
    if start + size < |words| {
      if start + stride <= |words| {
        assert words[start..][stride..] == words[start + stride..];
        LoopIsWindows(words, start + stride, size, stride);
      }
      assert words[start..][..size] == words[start..start + size];
    } else if start < |words| {
      assert Slice(words, start, start + size) == words[start..];
    }
  }

  lemma ChunksAreWindows(text: string, size: nat, overlap: int)
    requires size >= 1
    ensures Chunks(text, size, overlap) == JoinAll(Windows(Words(text), size, Stride(size, overlap)))
  {
    hide Words, JoinAll;
    var ws := Words(text);
    assert ws[0..] == ws;
    LoopIsWindows(ws, 0, size, Stride(size, overlap));
  }

  // ----- what the windows are

  /** One window, plus one for each stride needed to reach the last word. */
  lemma {:induction false} WindowCount(ws: seq<string>, size: nat, stride: nat)
    requires 1 <= stride <= size && ws != []
    ensures |Windows(ws, size, stride)|
         == if |ws| <= size then 1 else 1 + (|ws| - size + stride - 1) / stride
    decreases |ws|
  {
    if |ws| > size {
      WindowCount(ws[stride..], size, stride);
      AddOneStride(|ws| - size - 1, stride);
    }
  }

  lemma AddOneStride(m: nat, stride: nat)
    requires stride >= 1
    ensures (m + stride) / stride == m / stride + 1
    ensures m < stride ==> m / stride == 0
  {
    var q := m / stride;
    assert m + stride == (q + 1) * stride + m % stride;
    DivisionUnique(m + stride, stride, q + 1, m % stride);
  }

  lemma DivisionUnique(m: nat, d: nat, q: nat, r: nat)
    requires d >= 1 && m == q * d + r && r < d
    ensures m / d == q
  {
    var p := m / d;
    assert m == p * d + m % d;
    assert (p - q) * d == p * d - q * d;
    assert (q - p) * d == q * d - p * d;
    if p > q {
      MulOrder(1, p - q, d);
    } else if p < q {
      MulOrder(1, q - p, d);
    }
  }

  lemma MulOrder(a: int, b: int, c: nat)
    requires a <= b
    ensures a * c <= b * c
  {}

  lemma FirstWindow(ws: seq<string>, size: nat, stride: nat)
    requires 1 <= stride <= size && ws != []
    ensures Windows(ws, size, stride) != []
    ensures Windows(ws, size, stride)[0] == if |ws| <= size then ws else ws[..size]
  {}

  /** Every later window starts with the last size - stride words of the one before, and adds at least one word. */
  lemma {:induction false} WindowsOverlap(ws: seq<string>, size: nat, stride: nat, k: nat)
    requires 1 <= stride <= size
    requires k + 1 < |Windows(ws, size, stride)|
    ensures var w, shared := Windows(ws, size, stride), size - stride;
            && |w[k]| == size && |w[k + 1]| > shared
            && w[k][stride..] == w[k + 1][..shared]
    decreases k
  {
    var later := ws[stride..];
    assert Windows(ws, size, stride)[1..] == Windows(later, size, stride);
    FirstWindow(later, size, stride);
    if k > 0 {
      WindowsOverlap(later, size, stride, k - 1);
    }
  }

  /** The windows without their first `drop` words, put together. */
  function Tails(windows: seq<seq<string>>, drop: nat): seq<string> {
    if windows == [] then []
    else (if drop <= |windows[0]| then windows[0][drop..] else []) + Tails(windows[1..], drop)
  }

  /** The first window in full, then every later window without its first `drop` words. */
  function Rebuild(windows: seq<seq<string>>, drop: nat): seq<string> {
    if windows == [] then [] else windows[0] + Tails(windows[1..], drop)
  }

  /** Chunking loses and reorders nothing: dropping the shared words rebuilds the exact word list. */
  lemma {:induction false} WindowsRebuild(ws: seq<string>, size: nat, stride: nat)
    requires 1 <= stride <= size
    ensures Rebuild(Windows(ws, size, stride), size - stride) == ws
    decreases |ws|
  {
    hide Windows, Rebuild, Tails;
    if ws == [] {
      RebuildStep([], [], size - stride);
      NoWindow(size, stride);
    } else if |ws| <= size {
      WindowsStep(ws, size, stride);
      RebuildStep(ws, [], size - stride);
      assert [ws] + [] == [ws] && ws + [] == ws;
    } else {
      var later, drop := ws[stride..], size - stride;
      var w := Windows(later, size, stride);
      WindowsStep(ws, size, stride);
      FirstWindow(later, size, stride);
      WindowsRebuild(later, size, stride);
      RebuildStep(ws[..size], w, drop);
      RebuildStep(w[0], w[1..], drop);
      assert w == [w[0]] + w[1..];
      TailsStep(w, drop);
      assert later == w[0] + Tails(w[1..], drop);
      assert w[0][drop..] + Tails(w[1..], drop) == later[drop..];
      assert ws == ws[..size] + later[drop..];
    }
  }

  lemma NoWindow(size: nat, stride: nat)
    requires stride >= 1
    ensures Windows([], size, stride) == []
  {}

  lemma RebuildStep(first: seq<string>, rest: seq<seq<string>>, drop: nat)
    ensures Rebuild([first] + rest, drop) == first + Tails(rest, drop)
    ensures Rebuild([], drop) == []
    ensures Tails([], drop) == []
  {
    assert ([first] + rest)[1..] == rest;
  }

  lemma TailsStep(w: seq<seq<string>>, drop: nat)
    requires w != [] && drop <= |w[0]|
    ensures Tails(w, drop) == w[0][drop..] + Tails(w[1..], drop)
  {}

  function WordLists(chunks: seq<string>): seq<seq<string>> {
    seq(|chunks|, k requires 0 <= k < |chunks| => Words(chunks[k]))
  }

  lemma {:induction false} WindowsHoldWords(ws: seq<string>, size: nat, stride: nat)
    requires stride >= 1 && forall w | w in ws :: IsWord(w)
    ensures forall k | 0 <= k < |Windows(ws, size, stride)| ::
              var window := Windows(ws, size, stride)[k];
              0 < |window| <= size && forall w | w in window :: IsWord(w)
    decreases |ws|
  {
    if size > 0 && |ws| > size && stride <= |ws| {
      WindowsHoldWords(ws[stride..], size, stride);
    }
  }

  lemma {:induction false} WordsOfJoinAll(windows: seq<seq<string>>)
    requires forall k | 0 <= k < |windows| :: forall w | w in windows[k] :: IsWord(w)
    ensures |JoinAll(windows)| == |windows|
    ensures forall k | 0 <= k < |windows| :: JoinAll(windows)[k] == Join(windows[k], " ")
    ensures WordLists(JoinAll(windows)) == windows
  {
    hide Words, Join;
    if windows != [] {
      WordsJoin(windows[0]);
      WordsOfJoinAll(windows[1..]);
      assert windows == [windows[0]] + windows[1..];
      assert WordLists(JoinAll(windows)) == [Words(Join(windows[0], " "))] + WordLists(JoinAll(windows[1..]));
    }
  }

  /** The words shared by consecutive windows, or none when the windows leave gaps. */
  function Shared(size: nat, overlap: int): nat {
    var stride := Stride(size, overlap);
    if stride <= size then size - stride else 0
  }

  /** Windows with gaps between them hold fewer words than the list, once it is longer than one window. */
  lemma {:induction false} GapsLose(ws: seq<string>, size: nat, stride: nat)
    requires 1 <= size < stride
    ensures |Tails(Windows(ws, size, stride), 0)| <= |ws|
    ensures |ws| > size ==> |Tails(Windows(ws, size, stride), 0)| < |ws|
    decreases |ws|
  {
    hide Tails;
    if ws == [] {
      RebuildStep([], [], 0);
    } else if |ws| <= size {
      ShortWindows(ws, size, stride);
    } else if stride <= |ws| {
      TailsOfCons(ws[..size], Windows(ws[stride..], size, stride));
      GapsLose(ws[stride..], size, stride);
    } else {
      TailsOfCons(ws[..size], []);
    }
  }

  lemma TailsOfCons(first: seq<string>, rest: seq<seq<string>>)
    ensures Tails([first] + rest, 0) == first + Tails(rest, 0) && Tails([], 0) == []
  {
    assert ([first] + rest)[1..] == rest;
  }

  lemma WordsOfChunks(text: string, size: nat, overlap: int)
    requires size >= 1
    ensures WordLists(Chunks(text, size, overlap)) == Windows(Words(text), size, Stride(size, overlap))
  {
    var ws, stride := Words(text), Stride(size, overlap);
    ChunksAreWindows(text, size, overlap);
    WindowsHoldWords(ws, size, stride);
    WordsOfJoinAll(Windows(ws, size, stride));
  }

  /**
   * Reading the chunks back and dropping the shared words rebuilds the text's words, for every positive size, exactly
   * when the overlap is not negative or one chunk holds them all.
   */
  lemma ChunksRebuild(text: string, size: nat, overlap: int)
    requires size >= 1
    ensures Rebuild(WordLists(Chunks(text, size, overlap)), Shared(size, overlap)) == Words(text)
            <==> overlap >= 0 || |Words(text)| <= size
  {
    hide Words, Chunks, Windows, WordLists, Tails;
    var ws, stride := Words(text), Stride(size, overlap);
    WordsOfChunks(text, size, overlap);
    if overlap >= 0 {
      WindowsRebuild(ws, size, stride);
    } else {
      GapsLose(ws, size, stride);
      if |ws| <= size {
        ShortWindows(ws, size, stride);
      }
      RebuildWithoutDrop(Windows(ws, size, stride));
    }
  }

  lemma ShortWindows(ws: seq<string>, size: nat, stride: nat)
    requires stride >= 1 && size >= 1 && |ws| <= size
    ensures Tails(Windows(ws, size, stride), 0) == ws
  {
    if ws != [] {
      TailsOfCons(ws, []);
      assert [ws] + [] == [ws];
    }
  }

  lemma RebuildWithoutDrop(windows: seq<seq<string>>)
    ensures Rebuild(windows, 0) == Tails(windows, 0)
  {}

  lemma WordsAreWords(text: string)
    ensures forall w | w in Words(text) :: IsWord(w)
  {}

  /** Chunking a chunk changes nothing. */
  lemma ChunkOfChunk(text: string, size: nat, overlap: int, k: nat)
    requires size >= 1 && k < |Chunks(text, size, overlap)|
    ensures var chunk := Chunks(text, size, overlap)[k];
            Chunks(chunk, size, overlap) == [chunk]
  {
    hide Words, Join, Chunks;
    var windows := Windows(Words(text), size, Stride(size, overlap));
    ChunksAreWindows(text, size, overlap);
    ChunksAreWindows(Chunks(text, size, overlap)[k], size, overlap);
    WordsAreWords(text);
    WindowsHoldWords(Words(text), size, Stride(size, overlap));
    WordsOfJoinAll(windows);
    WordsJoin(windows[k]);
    JoinAllStep(windows[k], []);
  }

  /** A text yields no chunk exactly when it is blank. */
  lemma ChunksOfBlank(text: string, size: nat, overlap: int)
    requires size >= 1
    ensures Chunks(text, size, overlap) == [] <==> Blank(text)
  {
    BlankIffNoWords(text);
    ChunksAreWindows(text, size, overlap);
  }

  /** A tidy text of at most `size` words is its own only chunk. */
  lemma TidyTextIsChunk(text: string, size: nat, overlap: int)
    requires Tidy(text) && text != "" && |Words(text)| <= size
    ensures Chunks(text, size, overlap) == [text]
  {
    hide Words, Join, Chunks;
    TidyRejoins(text);
    ChunksAreWindows(text, size, overlap);
    JoinAllStep(Words(text), []);
  }

  /** Every chunk is tidy: its words, and one blank between each two of them. */
  lemma ChunkIsTidy(text: string, size: nat, overlap: int, k: nat)
    requires size >= 1 && k < |Chunks(text, size, overlap)|
    ensures var chunk := Chunks(text, size, overlap)[k];
            && Tidy(chunk) && chunk != "" && IsGraphic(chunk[|chunk| - 1])
            && |chunk| == TotalLength(Words(chunk)) + |Words(chunk)| - 1
  {
    hide Words, Join, Chunks, Tidy;
    var windows := Windows(Words(text), size, Stride(size, overlap));
    ChunksAreWindows(text, size, overlap);
    WordsAreWords(text);
    WindowsHoldWords(Words(text), size, Stride(size, overlap));
    WordsOfJoinAll(windows);
    WordsJoin(windows[k]);
    TidyJoin(windows[k]);
    JoinLength(windows[k]);
  }
}
