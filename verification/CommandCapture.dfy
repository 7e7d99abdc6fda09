// Bounded capture of a command's output (e2e/system/src/command-capture.ts). The output
// arrives in chunks cut anywhere; what is retained is proved to be a function of the whole
// stream, so the cuts do not matter.
module CommandCapture {

  type Byte = b: int | 0 <= b < 256

  type Bytes = seq<Byte>

  const NEWLINE: Byte := 10
  const CARRIAGE_RETURN: Byte := 13
  /** "[TRUNCATED]" in UTF-8. */
  const TRUNCATED: Bytes := [91, 84, 82, 85, 78, 67, 65, 84, 69, 68, 93]

  function Concat(parts: seq<Bytes>): Bytes {
    if parts == [] then [] else Concat(parts[..|parts| - 1]) + parts[|parts| - 1]
  }

  lemma ConcatAppend(parts: seq<Bytes>, part: Bytes)
    ensures Concat(parts + [part]) == Concat(parts) + part
  {
    assert (parts + [part])[..|parts|] == parts;
  }

  lemma {:induction false} ConcatFirst(parts: seq<Bytes>)
    requires parts != []
    ensures Concat(parts) == parts[0] + Concat(parts[1..])
  {
    if |parts| > 1 {
      var init := parts[..|parts| - 1];
      ConcatFirst(init);
      assert parts[1..][..|parts| - 2] == init[1..];
    }
  }

  function Min(a: int, b: int): int { if a < b then a else b }

  // ---- Bytes ----

  datatype Mode = Prefix | Tail

  /** The first or the last bytes of a stream. */
  function Window(mode: Mode, stream: Bytes, maxBytes: nat): Bytes {
    var kept := Min(|stream|, maxBytes);
    match mode case Prefix => stream[..kept] case Tail => stream[|stream| - kept..]
  }

  lemma PrefixGrows(stream: Bytes, chunk: Bytes, limit: nat)
    ensures
      Window(Prefix, stream + chunk, limit) ==
      if |stream| < limit then Window(Prefix, stream, limit) + chunk[..Min(|chunk|, limit - |stream|)]
      else Window(Prefix, stream, limit)
  {}

  lemma TailReplaced(stream: Bytes, chunk: Bytes, limit: nat)
    requires |chunk| >= limit
    ensures Window(Tail, stream + chunk, limit) == chunk[|chunk| - limit..]
  {}

  class ByteCapture {
    const mode: Mode
    const maxBytes: nat
    var chunks: seq<Bytes>
    var byteLength: nat
    ghost var stream: Bytes

    ghost predicate Valid()
      reads this
    {
      maxBytes >= 1 && Concat(chunks) == Window(mode, stream, maxBytes) && byteLength == Min(|stream|, maxBytes)
    }

    constructor (mode: Mode, maxBytes: nat)
      requires maxBytes >= 1
      ensures Valid() && stream == [] && this.mode == mode && this.maxBytes == maxBytes
    {
      this.mode, this.maxBytes, chunks, byteLength, stream := mode, maxBytes, [], 0, [];
    }

    method Append(chunk: Bytes)
      requires Valid()
      modifies this
      ensures Valid() && stream == old(stream) + chunk
    {
      ghost var before := stream;
      stream := before + chunk;
      if mode.Prefix? {
        PrefixGrows(before, chunk, maxBytes);
        if byteLength < maxBytes {
          var bounded := chunk[..Min(|chunk|, maxBytes - byteLength)];
          ConcatAppend(chunks, bounded);
          chunks := chunks + [bounded];
          byteLength := byteLength + |bounded|;
        }
      } else if |chunk| >= maxBytes {
        TailReplaced(before, chunk, maxBytes);
        chunks := [chunk[|chunk| - maxBytes..]];
        ConcatAppend([], chunks[0]);
        assert [] + [chunks[0]] == chunks;
        byteLength := maxBytes;
      } else {
        AppendTail(chunk);
      }
    }

    /** Push the chunk, then drop what overflows at the front. */
    method AppendTail(chunk: Bytes)
      requires maxBytes >= 1 && mode.Tail? && |chunk| < maxBytes && |stream| >= |chunk|
      requires Concat(chunks) == Window(Tail, stream[..|stream| - |chunk|], maxBytes)
      requires byteLength == Min(|stream| - |chunk|, maxBytes) && chunk == stream[|stream| - |chunk|..]
      modifies this`chunks, this`byteLength
      ensures Valid()
    {
      ConcatAppend(chunks, chunk);
      TailGrows(stream[..|stream| - |chunk|], chunk, maxBytes);
      assert stream == stream[..|stream| - |chunk|] + chunk;
      chunks := chunks + [chunk];
      byteLength := byteLength + |chunk|;
      DropFront();
    }

    method DropFront()
      requires byteLength == |Concat(chunks)|
      modifies this`chunks, this`byteLength
      ensures Concat(chunks) == Window(Tail, old(Concat(chunks)), maxBytes) && byteLength == |Concat(chunks)|
    {
      ghost var whole := Concat(chunks);
      while byteLength > maxBytes
        invariant byteLength <= |whole| && (byteLength >= maxBytes || byteLength == |whole|)
        invariant Concat(chunks) == whole[|whole| - byteLength..]
        decreases byteLength, |chunks|
      {
        var first := chunks[0];
        var overflow := byteLength - maxBytes;
        TrimmedConcat(chunks, overflow);
        if |first| <= overflow {
          chunks := chunks[1..];
          byteLength := byteLength - |first|;
        } else {
          chunks := [first[overflow..]] + chunks[1..];
          byteLength := byteLength - overflow;
        }
      }
    }
  }

  /** Dropping the first chunk, or its first bytes, drops as much from the whole. */
  lemma TrimmedConcat(chunks: seq<Bytes>, overflow: nat)
    requires chunks != []
    ensures |chunks[0]| <= overflow ==> |chunks[0]| <= |Concat(chunks)| && Concat(chunks[1..]) == Concat(chunks)[|chunks[0]|..]
    ensures |chunks[0]| > overflow ==>
      overflow <= |Concat(chunks)| && Concat([chunks[0][overflow..]] + chunks[1..]) == Concat(chunks)[overflow..]
  {
    ConcatFirst(chunks);
    DropPrefix(chunks[0], Concat(chunks[1..]), Min(|chunks[0]|, overflow));
    if |chunks[0]| > overflow { ConcatCons(chunks[0][overflow..], chunks[1..]); }
  }

  lemma ConcatCons(first: Bytes, rest: seq<Bytes>)
    ensures Concat([first] + rest) == first + Concat(rest)
  {
    ConcatFirst([first] + rest);
    assert ([first] + rest)[1..] == rest;
  }

  lemma DropPrefix(a: Bytes, b: Bytes, k: nat)
    requires k <= |a|
    ensures (a + b)[k..] == a[k..] + b
  {}

  lemma TailGrows(stream: Bytes, chunk: Bytes, maxBytes: nat)
    ensures Window(Tail, Window(Tail, stream, maxBytes) + chunk, maxBytes) == Window(Tail, stream + chunk, maxBytes)
  {}

  // ---- Lines ----

  /** The bytes after the last newline. */
  function Rest(stream: Bytes): Bytes {
    if stream == [] || stream[|stream| - 1] == NEWLINE then []
    else Rest(stream[..|stream| - 1]) + [stream[|stream| - 1]]
  }

  function StripReturn(line: Bytes): Bytes {
    if line != [] && line[|line| - 1] == CARRIAGE_RETURN then line[..|line| - 1] else line
  }

  /** What is kept of a complete line: without its carriage return, and replaced by the
      marker when it does not fit by itself. */
  function Processed(line: Bytes, maxBytes: nat): Bytes {
    var content := StripReturn(line);
    (if |content| + 1 > maxBytes then TRUNCATED else content) + [NEWLINE]
  }

  function Lines(stream: Bytes, maxBytes: nat): seq<Bytes> {
    if stream == [] then []
    else
      var init := stream[..|stream| - 1];
      Lines(init, maxBytes) + if stream[|stream| - 1] == NEWLINE then [Processed(Rest(init), maxBytes)] else []
  }

  /** A line still open: as it is, or the marker when it is already too long. */
  function Open(stream: Bytes, maxBytes: nat): seq<Bytes> {
    if Rest(stream) == [] then [] else if |Rest(stream)| > maxBytes then [TRUNCATED] else [Rest(stream)]
  }

  function Total(entries: seq<Bytes>): nat { |Concat(entries)| }

  /** Drop entries from the front until the others fit. */
  function Fit(entries: seq<Bytes>, maxBytes: nat): seq<Bytes> {
    if Total(entries) <= maxBytes then entries else Fit(entries[1..], maxBytes)
  }

  lemma {:induction false} TotalTail(entries: seq<Bytes>, k: nat)
    requires k <= |entries|
    ensures Total(entries[k..]) <= Total(entries)
  {
    if k > 0 {
      ConcatFirst(entries);
      TotalTail(entries[1..], k - 1);
      assert entries[1..][k - 1..] == entries[k..];
    }
  }

  /** Fit keeps the longest run of last entries that is within the limit. */
  lemma {:induction false} FitIsLongest(entries: seq<Bytes>, maxBytes: nat, k: nat)
    requires k <= |entries|
    ensures Total(Fit(entries, maxBytes)) <= maxBytes
    ensures |Fit(entries, maxBytes)| <= |entries| && Fit(entries, maxBytes) == entries[|entries| - |Fit(entries, maxBytes)|..]
    ensures Total(entries[k..]) <= maxBytes <==> |entries| - k <= |Fit(entries, maxBytes)|
    decreases |entries|
  {
    if Total(entries) <= maxBytes {
      TotalTail(entries, k);
    } else if k > 0 {
      FitIsLongest(entries[1..], maxBytes, k - 1);
      assert entries[1..][k - 1..] == entries[k..];
      var kept := Fit(entries[1..], maxBytes);
      assert entries[1..][|entries| - 1 - |kept|..] == entries[|entries| - |kept|..];
    } else {
      FitIsLongest(entries[1..], maxBytes, 0);
      var kept := Fit(entries[1..], maxBytes);
      assert entries[1..][|entries| - 1 - |kept|..] == entries[|entries| - |kept|..];
    }
  }

  /** Dropping early loses nothing that would have been kept. */
  lemma {:induction false} FitAfterFit(entries: seq<Bytes>, e: Bytes, maxBytes: nat)
    ensures Fit(Fit(entries, maxBytes) + [e], maxBytes) == Fit(entries + [e], maxBytes)
    decreases |entries|
  {
    if Total(entries) > maxBytes {
      FitAfterFit(entries[1..], e, maxBytes);
      ConcatAppend(entries, e);
      assert (entries + [e])[1..] == entries[1..] + [e];
    }
  }

  class LineCapture {
    const maxBytes: nat
    var entries: seq<Bytes>
    var entriesBytes: nat
    var pending: seq<Bytes>
    var pendingBytes: nat
    var oversized: bool
    ghost var stream: Bytes

    ghost predicate Valid()
      reads this
    {
      && maxBytes >= |TRUNCATED|
      && entries == Fit(Lines(stream, maxBytes), maxBytes) && entriesBytes == Total(entries)
      && pendingBytes == Total(pending) && oversized == (|Rest(stream)| > maxBytes)
      && (if oversized then pending == [] else Concat(pending) == Rest(stream))
    }

    constructor (maxBytes: nat)
      requires maxBytes >= |TRUNCATED|
      ensures Valid() && stream == [] && this.maxBytes == maxBytes
    {
      this.maxBytes, entries, entriesBytes, pending, pendingBytes, oversized, stream := maxBytes, [], 0, [], 0, false, [];
    }

    method Retain(entry: Bytes)
      requires entriesBytes == Total(entries)
      modifies this`entries, this`entriesBytes
      ensures entries == Fit(old(entries) + [entry], maxBytes) && entriesBytes == Total(entries)
    {
      ConcatAppend(entries, entry);
      entries := entries + [entry];
      entriesBytes := entriesBytes + |entry|;
      while entriesBytes > maxBytes
        invariant entriesBytes == Total(entries) && Fit(entries, maxBytes) == Fit(old(entries) + [entry], maxBytes)
        decreases |entries|
      {
        ConcatFirst(entries);
        entriesBytes := entriesBytes - |entries[0]|;
        entries := entries[1..];
      }
    }

    method AppendLineSegment(segment: Bytes)
      requires Valid() && NEWLINE !in segment
      modifies this
      ensures Valid() && stream == old(stream) + segment
    {
      SegmentOnly(stream, segment, maxBytes);
      stream := stream + segment;
      if !oversized && |segment| > 0 {
        if pendingBytes + |segment| > maxBytes {
          pending, pendingBytes, oversized := [], 0, true;
        } else {
          ConcatAppend(pending, segment);
          pending := pending + [segment];
          pendingBytes := pendingBytes + |segment|;
        }
      }
    }

    method PendingEntry() returns (entry: Bytes)
      requires Valid()
      ensures entry == Processed(Rest(stream), maxBytes)
    {
      if oversized { return TRUNCATED + [NEWLINE]; }
      var content := Concat(pending);
      if |content| > 0 && content[|content| - 1] == CARRIAGE_RETURN { content := content[..|content| - 1]; }
      entry := content + [NEWLINE];
      if |entry| > maxBytes { entry := TRUNCATED + [NEWLINE]; }
    }

    method FinishLine()
      requires Valid()
      modifies this
      ensures Valid() && stream == old(stream) + [NEWLINE]
    {
      var entry := PendingEntry();
      Retain(entry);
      FitAfterFit(Lines(stream, maxBytes), entry, maxBytes);
      LineEnds(stream, maxBytes);
      stream := stream + [NEWLINE];
      pending, pendingBytes, oversized := [], 0, false;
    }

    /** Cuts the chunk at its newlines. */
    method Append(chunk: Bytes)
      requires Valid()
      modifies this
      ensures Valid() && stream == old(stream) + chunk
    {
      var cursor := 0;
      while true
        invariant cursor <= |chunk| && Valid() && stream == old(stream) + chunk[..cursor]
        decreases |chunk| - cursor
      {
        var newline := IndexOf(chunk, cursor);
        if newline < 0 {
          Cut(old(stream), chunk, cursor, |chunk|);
          AppendLineSegment(chunk[cursor..]);
          return;
        }
        Cut(old(stream), chunk, cursor, newline);
        AppendLineSegment(chunk[cursor..newline]);
        FinishLine();
        cursor := newline + 1;
      }
    }

    /** The longest run of last lines that fits, an open line included. */
    method ToBytes() returns (value: Bytes)
      requires Valid()
      ensures value == Concat(Fit(Lines(stream, maxBytes) + Open(stream, maxBytes), maxBytes))
    {
      var tail, tailBytes := entries, entriesBytes;
      if oversized || pendingBytes > 0 {
        var last := if oversized then TRUNCATED else Concat(pending);
        FitAfterFit(Lines(stream, maxBytes), last, maxBytes);
        ConcatAppend(tail, last);
        tail := tail + [last];
        tailBytes := tailBytes + |last|;
        while tailBytes > maxBytes
          invariant tailBytes == Total(tail) && Fit(tail, maxBytes) == Fit(entries + [last], maxBytes)
          decreases |tail|
        {
          ConcatFirst(tail);
          tailBytes := tailBytes - |tail[0]|;
          tail := tail[1..];
        }
      } else {
        assert Lines(stream, maxBytes) + [] == Lines(stream, maxBytes);
      }
      value := Concat(tail);
    }
  }

  function IndexOf(chunk: Bytes, from: nat): (at: int)
    requires from <= |chunk|
    ensures at < 0 ==> NEWLINE !in chunk[from..]
    ensures at >= 0 ==> from <= at < |chunk| && chunk[at] == NEWLINE && NEWLINE !in chunk[from..at]
    decreases |chunk| - from
  {
    if from == |chunk| then -1
    else if chunk[from] == NEWLINE then from
    else
      assert chunk[from..] == [chunk[from]] + chunk[from + 1..];
      var at := IndexOf(chunk, from + 1);
      assert at >= 0 ==> chunk[from..at] == [chunk[from]] + chunk[from + 1..at];
      at
  }

  lemma LineEnds(stream: Bytes, maxBytes: nat)
    ensures Rest(stream + [NEWLINE]) == []
    ensures Lines(stream + [NEWLINE], maxBytes) == Lines(stream, maxBytes) + [Processed(Rest(stream), maxBytes)]
  {
    assert (stream + [NEWLINE])[..|stream|] == stream;
  }

  lemma Cut(stream: Bytes, chunk: Bytes, from: nat, to: nat)
    requires from <= to <= |chunk|
    ensures stream + chunk[..from] + chunk[from..to] == stream + chunk[..to]
    ensures to == |chunk| ==> stream + chunk[..to] == stream + chunk && chunk[from..to] == chunk[from..]
    ensures to < |chunk| && chunk[to] == NEWLINE ==> stream + chunk[..to] + [NEWLINE] == stream + chunk[..to + 1]
  {}

  /** A segment without a newline only lengthens the open line. */
  lemma {:induction false} SegmentOnly(stream: Bytes, segment: Bytes, maxBytes: nat)
    requires NEWLINE !in segment
    ensures Rest(stream + segment) == Rest(stream) + segment
    ensures Lines(stream + segment, maxBytes) == Lines(stream, maxBytes)
    decreases |segment|
  {
    if segment == [] {
      assert stream + segment == stream;
    } else {
      var init := segment[..|segment| - 1];
      SegmentOnly(stream, init, maxBytes);
      assert (stream + segment)[..|stream + segment| - 1] == stream + init;
      assert segment[|segment| - 1] in segment;
    }
  }
}
