/** The `<think>` tag splitter of internal/service/perplexity_test.go: streamed answer text
    is classified character by character into message text and reasoning text, a
    `<think>` ... `</think>` pair switching between the two. Text that may be the start of
    a marker split across two chunks is carried over to the next chunk.

    The test keeps the splitter's state in local variables of a loop; here the state is a
    value, `Splitter`, that `Feed` and `Finish` thread from chunk to chunk. */
module ThinkTags {
  import opened Wrappers
  import opened GoStrings

  const Open: string := "<think>"
  const Close: string := "</think>"

  /** The only marker recognised in the current mode: `</think>` while thinking,
      `<think>` otherwise. Markers do not nest. */
  function Marker(thinking: bool): (m: string)
    ensures |m| == if thinking then 8 else 7
    ensures m[0] == '<'
  {
    if thinking then Close else Open
  }

  /** `isPotentialTagPrefix(remaining, inThinking)`: `remaining` is a strict prefix of the
      marker of the current mode, so that more input could complete it. */
  predicate IsPotentialTagPrefix(remaining: string, thinking: bool) {
    |remaining| < |Marker(thinking)| && Marker(thinking)[..|remaining|] == remaining
  }

  /** The splitter's state: the mode (`inThinking`), the two output buffers
      (`messageBuf`, `reasoningBuf`) and the carried-over text (`buffer`). */
  datatype Splitter = Splitter(thinking: bool, message: string, reasoning: string, pending: string)

  const Initial: Splitter := Splitter(false, "", "", "")

  /** The pending text is empty or a strict prefix of the current mode's marker. */
  predicate PendingOk(st: Splitter) {
    st.pending == [] || IsPotentialTagPrefix(st.pending, st.thinking)
  }

  /** `text` written to the buffer of the given mode. */
  function Emit(thinking: bool, text: string): Splitter {
    if thinking then Splitter(true, "", text, "") else Splitter(false, text, "", "")
  }

  /** `a`'s output followed by `b`'s, ending in `b`'s mode with `b`'s carried-over text. */
  function AndThen(a: Splitter, b: Splitter): Splitter {
    Splitter(b.thinking, a.message + b.message, a.reasoning + b.reasoning, b.pending)
  }

  lemma {:induction false} AndThenAssoc(a: Splitter, b: Splitter, c: Splitter)
    ensures AndThen(a, AndThen(b, c)) == AndThen(AndThen(a, b), c)
  {
    assert a.message + (b.message + c.message) == (a.message + b.message) + c.message;
    assert a.reasoning + (b.reasoning + c.reasoning) == (a.reasoning + b.reasoning) + c.reasoning;
  }

  /** The loop of TestThinkTagParsing, which classifies a whole string at once: at each
      position either the current mode's marker is skipped and the mode flips, or one
      character goes to the current mode's buffer. This is the reference meaning of the
      splitter. */
  function Classify(thinking: bool, s: string): (r: Splitter)
    ensures r.pending == []
    decreases |s|
  {
    if s == [] then Splitter(thinking, "", "", "")
    else if HasPrefix(s, Marker(thinking)) then Classify(!thinking, s[|Marker(thinking)|..])
    else AndThen(Emit(thinking, s[..1]), Classify(thinking, s[1..]))
  }

  /** One chunk of TestThinkTagSplitAcrossChunks: like `Classify`, except that a short
      rest that could still become the current mode's marker is held back as pending text,
      which is then a potential marker prefix. */
  function Scan(thinking: bool, w: string): (r: Splitter)
    ensures PendingOk(r)
    decreases |w|
  {
    if w == [] then Splitter(thinking, "", "", "")
    else if HasPrefix(w, Marker(thinking)) then Scan(!thinking, w[|Marker(thinking)|..])
    else if |w| < 8 && IsPotentialTagPrefix(w, thinking) then Splitter(thinking, "", "", w)
    else AndThen(Emit(thinking, w[..1]), Scan(thinking, w[1..]))
  }

  /** The state after one more chunk: the carried-over text is put in front of the chunk
      and the result scanned in the current mode. */
  function Step(st: Splitter, fragment: string): Splitter {
    AndThen(st, Scan(st.thinking, st.pending + fragment))
  }

  /** The state after a sequence of chunks. */
  function FeedAll(st: Splitter, chunks: seq<string>): Splitter
    decreases |chunks|
  {
    if chunks == [] then st else FeedAll(Step(st, chunks[0]), chunks[1..])
  }

  /** The chunks concatenated. */
  function Join(chunks: seq<string>): string
    decreases |chunks|
  {
    if chunks == [] then "" else chunks[0] + Join(chunks[1..])
  }

  /** End of stream: leftover pending text goes verbatim to the buffer of the current mode
      (reasoning when thinking, message otherwise) and nothing is lost. */
  function Finish(st: Splitter): (r: Splitter)
    ensures r.thinking == st.thinking && r.pending == []
    ensures r.message == st.message + (if st.thinking then "" else st.pending)
    ensures r.reasoning == st.reasoning + (if st.thinking then st.pending else "")
    ensures |r.message| + |r.reasoning| == |st.message| + |st.reasoning| + |st.pending|
  {
    AndThen(st, Emit(st.thinking, st.pending))
  }

  /** All chunks fed to a fresh splitter, then the final flush. */
  function SplitAll(chunks: seq<string>): Splitter {
    Finish(FeedAll(Initial, chunks))
  }

  // ---------------------------------------------------------------------------------
  // The loops themselves.

  /** The loop of TestThinkTagParsing (no chunking). */
  method ParseThinkTags(input: string) returns (message: string, reasoning: string)
    ensures message == Classify(false, input).message
    ensures reasoning == Classify(false, input).reasoning
  {
    var thinking := false;
    message, reasoning := "", "";
    var i := 0;
    while i < |input|
      invariant 0 <= i <= |input|
      invariant Classify(false, input)
        == AndThen(Splitter(thinking, message, reasoning, ""), Classify(thinking, input[i..]))
    {
      if !thinking && HasPrefix(input[i..], Open) {
        ClassifyMarkerStep(thinking, input, i);
        thinking := true;
        i := i + |Open|;
        continue;
      }
      if thinking && HasPrefix(input[i..], Close) {
        ClassifyMarkerStep(thinking, input, i);
        thinking := false;
        i := i + |Close|;
        continue;
      }
      ClassifyWrites(Splitter(thinking, message, reasoning, ""), input, i);
      if thinking {
        reasoning := reasoning + [input[i]];
      } else {
        message := message + [input[i]];
      }
      i := i + 1;
    }
  }

  /** The body of the chunk loop of TestThinkTagSplitAcrossChunks for one chunk. */
  method Feed(st: Splitter, fragment: string) returns (next: Splitter)
    ensures next == Step(st, fragment)
  {
    var deltaContent := fragment;
    if |st.pending| > 0 {
      deltaContent := st.pending + fragment;
    }
    assert deltaContent == st.pending + fragment;
    ghost var goal := Step(st, fragment);
    var thinking, message, reasoning, pending := st.thinking, st.message, st.reasoning, "";
    var i := 0;
    assert deltaContent[0..] == deltaContent;
    while i < |deltaContent|
      invariant 0 <= i <= |deltaContent|
      invariant goal == AndThen(Splitter(thinking, message, reasoning, ""), Scan(thinking, deltaContent[i..]))
    {
      if !thinking && HasPrefix(deltaContent[i..], Open) {
        ScanMarkerStep(thinking, deltaContent, i);
        thinking := true;
        i := i + |Open|;
        continue;
      }
      if thinking && HasPrefix(deltaContent[i..], Close) {
        ScanMarkerStep(thinking, deltaContent, i);
        thinking := false;
        i := i + |Close|;
        continue;
      }
      var remaining := deltaContent[i..];
      if |remaining| < 8 && IsPotentialTagPrefix(remaining, thinking) {
        ScanHoldStep(thinking, deltaContent, i);
        pending := remaining;
        break;
      }
      ScanWrites(Splitter(thinking, message, reasoning, ""), deltaContent, i);
      if thinking {
        reasoning := reasoning + [deltaContent[i]];
      } else {
        message := message + [deltaContent[i]];
      }
      i := i + 1;
    }
    if pending == "" {
      assert deltaContent[i..] == [];
    }
    AndThenNothing(Splitter(thinking, message, reasoning, ""), thinking, pending);
    next := Splitter(thinking, message, reasoning, pending);
  }

  /** Following a state by no output changes only the mode and the pending text. */
  lemma {:induction false} AndThenNothing(a: Splitter, thinking: bool, pending: string)
    ensures AndThen(a, Splitter(thinking, "", "", pending)) == Splitter(thinking, a.message, a.reasoning, pending)
  {
    assert a.message + "" == a.message;
    assert a.reasoning + "" == a.reasoning;
  }

  // One iteration of either loop, as a fact about the specification functions.

  lemma {:induction false} ClassifyMarkerStep(thinking: bool, s: string, i: nat)
    requires i < |s| && HasPrefix(s[i..], Marker(thinking))
    ensures i + |Marker(thinking)| <= |s|
    ensures Classify(thinking, s[i..]) == Classify(!thinking, s[i + |Marker(thinking)|..])
  {
    assert s[i..][|Marker(thinking)|..] == s[i + |Marker(thinking)|..];
  }

  lemma {:induction false} ClassifyCharStep(thinking: bool, s: string, i: nat)
    requires i < |s| && !HasPrefix(s[i..], Marker(thinking))
    ensures Classify(thinking, s[i..]) == AndThen(Emit(thinking, [s[i]]), Classify(thinking, s[i + 1..]))
  {
    assert s[i..][..1] == [s[i]] && s[i..][1..] == s[i + 1..];
  }

  lemma {:induction false} ScanMarkerStep(thinking: bool, s: string, i: nat)
    requires i < |s| && HasPrefix(s[i..], Marker(thinking))
    ensures i + |Marker(thinking)| <= |s|
    ensures Scan(thinking, s[i..]) == Scan(!thinking, s[i + |Marker(thinking)|..])
  {
    assert s[i..][|Marker(thinking)|..] == s[i + |Marker(thinking)|..];
  }

  lemma {:induction false} ScanCharStep(thinking: bool, s: string, i: nat)
    requires i < |s| && !HasPrefix(s[i..], Marker(thinking))
    requires !(|s[i..]| < 8 && IsPotentialTagPrefix(s[i..], thinking))
    ensures Scan(thinking, s[i..]) == AndThen(Emit(thinking, [s[i]]), Scan(thinking, s[i + 1..]))
  {
    assert s[i..][..1] == [s[i]] && s[i..][1..] == s[i + 1..];
  }

  lemma {:induction false} ScanHoldStep(thinking: bool, s: string, i: nat)
    requires i < |s| && !HasPrefix(s[i..], Marker(thinking))
    requires |s[i..]| < 8 && IsPotentialTagPrefix(s[i..], thinking)
    ensures Scan(thinking, s[i..]) == Splitter(thinking, "", "", s[i..])
  {
  }

  /** One character of the whole text written to the buffer of the current mode. */
  lemma {:induction false} ClassifyWrites(acc: Splitter, s: string, i: nat)
    requires i < |s| && !HasPrefix(s[i..], Marker(acc.thinking))
    ensures AndThen(acc, Classify(acc.thinking, s[i..]))
      == AndThen(if acc.thinking then acc.(reasoning := acc.reasoning + [s[i]])
                 else acc.(message := acc.message + [s[i]]), Classify(acc.thinking, s[i + 1..]))
  {
    ClassifyCharStep(acc.thinking, s, i);
    Written(acc, s[i], Classify(acc.thinking, s[i + 1..]));
  }

  /** One character of a chunk written to the buffer of the current mode. */
  lemma {:induction false} ScanWrites(acc: Splitter, s: string, i: nat)
    requires i < |s| && !HasPrefix(s[i..], Marker(acc.thinking))
    requires !(|s[i..]| < 8 && IsPotentialTagPrefix(s[i..], acc.thinking))
    ensures AndThen(acc, Scan(acc.thinking, s[i..]))
      == AndThen(if acc.thinking then acc.(reasoning := acc.reasoning + [s[i]])
                 else acc.(message := acc.message + [s[i]]), Scan(acc.thinking, s[i + 1..]))
  {
    ScanCharStep(acc.thinking, s, i);
    Written(acc, s[i], Scan(acc.thinking, s[i + 1..]));
  }

  /** Writing one character to the buffer of the current mode. */
  lemma {:induction false} Written(acc: Splitter, c: char, rest: Splitter)
    ensures AndThen(acc, AndThen(Emit(acc.thinking, [c]), rest))
      == AndThen(if acc.thinking then acc.(reasoning := acc.reasoning + [c])
                 else acc.(message := acc.message + [c]), rest)
  {
    AndThenAssoc(acc, Emit(acc.thinking, [c]), rest);
  }

  /** TestThinkTagSplitAcrossChunks for one list of chunks: every chunk fed in order, then
      the flush. Whatever the chunking, the outcome is that of classifying the joined text
      in one go. */
  method SplitChunks(chunks: seq<string>) returns (message: string, reasoning: string)
    ensures message == Classify(false, Join(chunks)).message
    ensures reasoning == Classify(false, Join(chunks)).reasoning
  {
    var st := Initial;
    var k := 0;
    while k < |chunks|
      invariant 0 <= k <= |chunks|
      invariant FeedAll(st, chunks[k..]) == FeedAll(Initial, chunks)
    {
      assert chunks[k..][1..] == chunks[k + 1..];
      st := Feed(st, chunks[k]);
      k := k + 1;
    }
    var done := Finish(st);
    SplitAllIsClassify(chunks);
    message, reasoning := done.message, done.reasoning;
  }

  // ---------------------------------------------------------------------------------
  // Chunking invariance.

  /** What `Scan` holds back is the tail of its input, unwritten. */
  lemma {:induction false} ScanPendingIsSuffix(thinking: bool, w: string)
    ensures |Scan(thinking, w).pending| <= |w|
    ensures Scan(thinking, w).pending == w[|w| - |Scan(thinking, w).pending|..]
    decreases |w|
  {
    var m := Marker(thinking);
    if w == [] {
    } else if HasPrefix(w, m) {
      ScanPendingIsSuffix(!thinking, w[|m|..]);
    } else if |w| < 8 && IsPotentialTagPrefix(w, thinking) {
    } else {
      ScanPendingIsSuffix(thinking, w[1..]);
    }
  }

  /** Holding text back never changes the outcome: classifying `w + y` in one go is what
      `Scan` produced for `w`, followed by classifying its pending text together with
      whatever comes next. */
  lemma {:induction false} ScanThenClassify(thinking: bool, w: string, y: string)
    ensures Classify(thinking, w + y)
      == AndThen(Scan(thinking, w), Classify(Scan(thinking, w).thinking, Scan(thinking, w).pending + y))
    decreases |w|
  {
    var m := Marker(thinking);
    if w == [] {
      assert w + y == y;
    } else if HasPrefix(w, m) {
      assert (w + y)[..|m|] == w[..|m|];
      assert (w + y)[|m|..] == w[|m|..] + y;
      ScanThenClassify(!thinking, w[|m|..], y);
    } else if |w| < 8 && IsPotentialTagPrefix(w, thinking) {
    } else {
      assert !HasPrefix(w + y, m) by {
        if |m| <= |w| {
          assert (w + y)[..|m|] == w[..|m|];
        } else if |m| <= |w + y| {
          assert (w + y)[..|m|][..|w|] == w;
          assert m[..|w|] != w;
        }
      }
      assert (w + y)[..1] == w[..1];
      assert (w + y)[1..] == w[1..] + y;
      ScanThenClassify(thinking, w[1..], y);
      var s := Scan(thinking, w[1..]);
      AndThenAssoc(Emit(thinking, w[..1]), s, Classify(s.thinking, s.pending + y));
    }
  }

  /** A potential marker prefix holds no marker, so flushing it verbatim is classifying it. */
  lemma {:induction false} FinishClassifies(st: Splitter)
    requires PendingOk(st)
    ensures Finish(st) == AndThen(st, Classify(st.thinking, st.pending))
  {
    ClassifyShort(st.thinking, st.pending);
  }

  /** Text shorter than the current marker is written verbatim. */
  lemma {:induction false} ClassifyShort(thinking: bool, s: string)
    requires |s| < |Marker(thinking)|
    ensures Classify(thinking, s) == Emit(thinking, s)
    decreases |s|
  {
    if s != [] {
      ClassifyShort(thinking, s[1..]);
      assert s[..1] + s[1..] == s;
    }
  }

  /** Feeding chunks and then flushing, from any state whose pending text is well formed,
      is classifying the pending text and all the chunks joined in one go. */
  lemma {:induction false} FeedAllClassifies(st: Splitter, chunks: seq<string>)
    requires PendingOk(st)
    ensures Finish(FeedAll(st, chunks)) == AndThen(st, Classify(st.thinking, st.pending + Join(chunks)))
    decreases |chunks|
  {
    if chunks == [] {
      assert st.pending + Join(chunks) == st.pending;
      FinishClassifies(st);
    } else {
      FeedAllClassifies(Step(st, chunks[0]), chunks[1..]);
      FeedOneMore(st, chunks);
    }
  }

  /** The inductive step of `FeedAllClassifies`: one chunk more in front. */
  lemma {:induction false} FeedOneMore(st: Splitter, chunks: seq<string>)
    requires PendingOk(st) && chunks != []
    requires Finish(FeedAll(Step(st, chunks[0]), chunks[1..]))
      == AndThen(Step(st, chunks[0]), Classify(Step(st, chunks[0]).thinking, Step(st, chunks[0]).pending + Join(chunks[1..])))
    ensures Finish(FeedAll(st, chunks)) == AndThen(st, Classify(st.thinking, st.pending + Join(chunks)))
  {
    var f, rest := chunks[0], chunks[1..];
    var s := Scan(st.thinking, st.pending + f);
    var c := Classify(s.thinking, s.pending + Join(rest));
    calc {
      Finish(FeedAll(st, chunks));
      AndThen(AndThen(st, s), c);
      { AndThenAssoc(st, s, c); }
      AndThen(st, AndThen(s, c));
      { ScanThenClassify(st.thinking, st.pending + f, Join(rest)); }
      AndThen(st, Classify(st.thinking, (st.pending + f) + Join(rest)));
      { JoinCons(st.pending, chunks); }
      AndThen(st, Classify(st.thinking, st.pending + Join(chunks)));
    }
  }

  lemma {:induction false} JoinCons(p: string, chunks: seq<string>)
    requires chunks != []
    ensures p + Join(chunks) == (p + chunks[0]) + Join(chunks[1..])
  {
    assert Join(chunks) == chunks[0] + Join(chunks[1..]);
  }

  /** The chunked splitter agrees with the unchunked loop on the joined text. */
  lemma {:induction false} SplitAllIsClassify(chunks: seq<string>)
    ensures SplitAll(chunks) == Classify(false, Join(chunks))
  {
    FeedAllClassifies(Initial, chunks);
    assert "" + Join(chunks) == Join(chunks);
    var c := Classify(false, Join(chunks));
    assert "" + c.message == c.message && "" + c.reasoning == c.reasoning;
  }

  /** Re-chunking the same text never changes the message, the reasoning or the final mode. */
  lemma {:induction false} ChunkingInvariance(a: seq<string>, b: seq<string>)
    requires Join(a) == Join(b)
    ensures SplitAll(a) == SplitAll(b)
  {
    SplitAllIsClassify(a);
    SplitAllIsClassify(b);
  }

  // ---------------------------------------------------------------------------------
  // What the classification does with markers.

  /** Up to the first occurrence of the current marker, text is written verbatim. */
  lemma {:induction false} ClassifyUpTo(thinking: bool, s: string, k: nat)
    requires k <= |s|
    requires forall i :: 0 <= i < k ==> !Occurs(s, Marker(thinking), i)
    ensures Classify(thinking, s) == AndThen(Emit(thinking, s[..k]), Classify(thinking, s[k..]))
    decreases k
  {
    var c := Classify(thinking, s[k..]);
    if k == 0 {
      assert s[..0] == "" && s[0..] == s;
      assert "" + c.message == c.message && "" + c.reasoning == c.reasoning;
    } else {
      NoMarkerInTail(thinking, s, k);
      ClassifyUpTo(thinking, s[1..], k - 1);
      ClassifyUpToStep(thinking, s, k);
    }
  }

  /** No marker before `k` in `s`: none before `k - 1` in `s[1..]`, and none at 0. */
  lemma {:induction false} NoMarkerInTail(thinking: bool, s: string, k: nat)
    requires 0 < k <= |s|
    requires forall i :: 0 <= i < k ==> !Occurs(s, Marker(thinking), i)
    ensures !HasPrefix(s, Marker(thinking))
    ensures forall i :: 0 <= i < k - 1 ==> !Occurs(s[1..], Marker(thinking), i)
  {
    assert !Occurs(s, Marker(thinking), 0);
    forall i | 0 <= i < k - 1 ensures !Occurs(s[1..], Marker(thinking), i) {
      OccursInSuffix(s, Marker(thinking), 1, i);
    }
  }

  /** The inductive step of `ClassifyUpTo`: one more verbatim character in front. */
  lemma {:induction false} ClassifyUpToStep(thinking: bool, s: string, k: nat)
    requires 0 < k <= |s| && !HasPrefix(s, Marker(thinking))
    requires Classify(thinking, s[1..])
      == AndThen(Emit(thinking, s[1..][..k - 1]), Classify(thinking, s[1..][k - 1..]))
    ensures Classify(thinking, s) == AndThen(Emit(thinking, s[..k]), Classify(thinking, s[k..]))
  {
    var c := Classify(thinking, s[k..]);
    assert s[1..][k - 1..] == s[k..];
    AndThenAssoc(Emit(thinking, s[..1]), Emit(thinking, s[1..][..k - 1]), c);
    assert s[..1] + s[1..][..k - 1] == s[..k];
  }

  /** The current mode's first marker is dropped: the text before the first occurrence of
      the current mode's marker is written verbatim to the current buffer, the marker itself is dropped
      and the mode flips; with no occurrence, the whole text goes to the current buffer.
      (`Index` guarantees that the run holds no marker.) */
  lemma {:induction false} ClassifyRuns(thinking: bool, s: string)
    ensures Index(s, Marker(thinking)) == -1 ==> Classify(thinking, s) == Emit(thinking, s)
    ensures Index(s, Marker(thinking)) >= 0 ==>
      var k := Index(s, Marker(thinking));
      k + |Marker(thinking)| <= |s|
      && Classify(thinking, s)
         == AndThen(Emit(thinking, s[..k]), Classify(!thinking, s[k + |Marker(thinking)|..]))
  {
    var k := Index(s, Marker(thinking));
    if k == -1 {
      ClassifyNoMarker(thinking, s);
    } else {
      ClassifyFirstMarker(thinking, s, k);
    }
  }

  lemma {:induction false} ClassifyNoMarker(thinking: bool, s: string)
    requires forall i :: !Occurs(s, Marker(thinking), i)
    ensures Classify(thinking, s) == Emit(thinking, s)
  {
    ClassifyUpTo(thinking, s, |s|);
    assert s[..|s|] == s;
    assert s[|s|..] == [];
    var e := Emit(thinking, s);
    assert e.message + "" == e.message && e.reasoning + "" == e.reasoning;
  }

  lemma {:induction false} ClassifyFirstMarker(thinking: bool, s: string, k: nat)
    requires Occurs(s, Marker(thinking), k)
    requires forall i :: 0 <= i < k ==> !Occurs(s, Marker(thinking), i)
    ensures k + |Marker(thinking)| <= |s|
    ensures Classify(thinking, s)
         == AndThen(Emit(thinking, s[..k]), Classify(!thinking, s[k + |Marker(thinking)|..]))
  {
    var m := Marker(thinking);
    ClassifyUpTo(thinking, s, k);
    assert s[k..][..|m|] == s[k..k + |m|];
    ClassifyMarkerStep(thinking, s, k);
  }

  /** Markers do not nest: while thinking, `<think>` is ordinary reasoning text. */
  lemma {:induction false} OpenWhileThinking(y: string)
    ensures Classify(true, Open + y) == AndThen(Emit(true, Open), Classify(true, y))
  {
    var s := Open + y;
    forall i | 0 <= i < |Open| ensures !Occurs(s, Close, i) {
      assert s[i] == Open[i];
      if i + 8 <= |s| {
        assert s[i..i + 8][0] == s[i] && s[i..i + 8][1] == s[i + 1];
        assert s[i] != '<' || s[i + 1] != '/';
      }
    }
    ClassifyUpTo(true, s, |Open|);
    assert s[..|Open|] == Open && s[|Open|..] == y;
  }

  /** Text free of `<` is written verbatim, whatever follows it. */
  lemma {:induction false} ClassifyPlain(thinking: bool, a: string, y: string)
    requires forall i :: 0 <= i < |a| ==> a[i] != '<'
    ensures Classify(thinking, a + y) == AndThen(Emit(thinking, a), Classify(thinking, y))
  {
    var s := a + y;
    forall i | 0 <= i < |a| ensures !Occurs(s, Marker(thinking), i) {
      assert s[i] == a[i];
      if i + |Marker(thinking)| <= |s| {
        assert s[i..i + |Marker(thinking)|][0] == s[i];
      }
    }
    ClassifyUpTo(thinking, s, |a|);
    assert s[..|a|] == a && s[|a|..] == y;
  }

  /** The current mode's marker at the front is dropped and flips the mode. */
  lemma {:induction false} ClassifyMarker(thinking: bool, y: string)
    ensures Classify(thinking, Marker(thinking) + y) == Classify(!thinking, y)
  {
    var s := Marker(thinking) + y;
    assert s[..|Marker(thinking)|] == Marker(thinking);
    assert s[|Marker(thinking)|..] == y;
  }

  /** `a<think>x</think>b` with `a` and `x` free of `<`. */
  lemma {:induction false} ClassifyBlock(a: string, x: string, b: string)
    requires forall i :: 0 <= i < |a| ==> a[i] != '<'
    requires forall i :: 0 <= i < |x| ==> x[i] != '<'
    ensures Classify(false, a + (Open + (x + (Close + b))))
      == AndThen(Splitter(false, a, x, ""), Classify(false, b))
  {
    var c := Classify(false, b);
    calc {
      Classify(false, a + (Open + (x + (Close + b))));
      { ClassifyPlain(false, a, Open + (x + (Close + b))); }
      AndThen(Emit(false, a), Classify(false, Open + (x + (Close + b))));
      { ClassifyMarker(false, x + (Close + b)); }
      AndThen(Emit(false, a), Classify(true, x + (Close + b)));
      { ClassifyPlain(true, x, Close + b); }
      AndThen(Emit(false, a), AndThen(Emit(true, x), Classify(true, Close + b)));
      { ClassifyMarker(true, b); }
      AndThen(Emit(false, a), AndThen(Emit(true, x), c));
      { AndThenAssoc(Emit(false, a), Emit(true, x), c); }
      AndThen(Splitter(false, a, x, ""), c);
    }
  }

  /** Text free of `<` at the end of the input. */
  lemma {:induction false} ClassifyTail(thinking: bool, a: string)
    requires forall i :: 0 <= i < |a| ==> a[i] != '<'
    ensures Classify(thinking, a) == Emit(thinking, a)
  {
    ClassifyPlain(thinking, a, "");
    assert a + "" == a;
    var e := Emit(thinking, a);
    assert e.message + "" == e.message && e.reasoning + "" == e.reasoning;
  }

  /** `a<think>x</think>b` with none of the three holding `<`. */
  lemma {:induction false} BlockThenTail(a: string, x: string, b: string)
    requires forall i :: 0 <= i < |a| ==> a[i] != '<'
    requires forall i :: 0 <= i < |x| ==> x[i] != '<'
    requires forall i :: 0 <= i < |b| ==> b[i] != '<'
    ensures Classify(false, a + (Open + (x + (Close + b)))) == Splitter(false, a + b, x, "")
  {
    calc {
      Classify(false, a + (Open + (x + (Close + b))));
      { ClassifyBlock(a, x, b); }
      AndThen(Splitter(false, a, x, ""), Classify(false, b));
      { ClassifyTail(false, b); }
      AndThen(Splitter(false, a, x, ""), Emit(false, b));
      { assert x + "" == x; }
      Splitter(false, a + b, x, "");
    }
  }

  /** `a<think>x</think>b<think>y</think>c` with none of the five holding `<`. */
  lemma {:induction false} TwoBlocksThenTail(a: string, x: string, b: string, y: string, c: string)
    requires forall i :: 0 <= i < |a| ==> a[i] != '<'
    requires forall i :: 0 <= i < |x| ==> x[i] != '<'
    requires forall i :: 0 <= i < |b| ==> b[i] != '<'
    requires forall i :: 0 <= i < |y| ==> y[i] != '<'
    requires forall i :: 0 <= i < |c| ==> c[i] != '<'
    ensures Classify(false, a + (Open + (x + (Close + (b + (Open + (y + (Close + c))))))))
      == Splitter(false, a + (b + c), x + y, "")
  {
    var rest := b + (Open + (y + (Close + c)));
    calc {
      Classify(false, a + (Open + (x + (Close + rest))));
      { ClassifyBlock(a, x, rest); }
      AndThen(Splitter(false, a, x, ""), Classify(false, rest));
      { BlockThenTail(b, y, c); }
      AndThen(Splitter(false, a, x, ""), Splitter(false, b + c, y, ""));
    }
  }

  // ---------------------------------------------------------------------------------
  // The cases of TestThinkTagParsing and TestThinkTagSplitAcrossChunks. The inputs are
  // written with `Open` and `Close` and pieces of them; `MarkerPieces` spells the pieces.

  lemma {:induction false} MarkerPieces()
    ensures Open[..1] == "<" && Open[1..3] == "th" && Open[3..5] == "in" && Open[5..] == "k>"
    ensures Open[..4] == "<thi" && Open[4..] == "nk>"
    ensures Close[..2] == "</" && Close[2..4] == "th" && Close[4..6] == "in" && Close[6..] == "k>"
    ensures Close[..5] == "</thi" && Close[5..] == "nk>"
  {
  }

  /** "Hello world": no tag. */
  lemma {:induction false} ParseNoTag()
    ensures Classify(false, "Hello world") == Splitter(false, "Hello world", "", "")
  {
    ClassifyTail(false, "Hello world");
  }

  /** "Before<think>thinking</think>After". */
  lemma {:induction false} ParseOneBlock()
    ensures Classify(false, "Before" + (Open + ("thinking" + (Close + "After"))))
      == Splitter(false, "BeforeAfter", "thinking", "")
  {
    BlockThenTail("Before", "thinking", "After");
  }

  /** "A<think>T1</think>B<think>T2</think>C". */
  lemma {:induction false} ParseTwoBlocks()
    ensures Classify(false, "A" + (Open + ("T1" + (Close + ("B" + (Open + ("T2" + (Close + "C"))))))))
      == Splitter(false, "ABC", "T1T2", "")
  {
    TwoBlocksThenTail("A", "T1", "B", "T2", "C");
  }

  /** "<think>only thinking</think>". */
  lemma {:induction false} ParseOnlyBlock()
    ensures Classify(false, Open + ("only thinking" + Close)) == Splitter(false, "", "only thinking", "")
  {
    BlockThenTail("", "only thinking", "");
    assert "" + (Open + ("only thinking" + (Close + ""))) == Open + ("only thinking" + Close);
  }

  lemma {:induction false} JoinHead(x: string, rest: seq<string>)
    ensures Join([x] + rest) == x + Join(rest)
  {
    assert ([x] + rest)[1..] == rest;
  }

  lemma {:induction false} Join3(a: string, b: string, c: string)
    ensures Join([a, b, c]) == a + (b + c)
  {
    JoinHead(c, []);
    assert [c] + [] == [c] && c + "" == c;
    JoinHead(b, [c]);
    JoinHead(a, [b, c]);
    assert [a] + [b, c] == [a, b, c];
  }

  lemma {:induction false} Join7(a: string, b: string, c: string, d: string, e: string, f: string, g: string)
    ensures Join([a, b, c, d, e, f, g]) == a + (b + (c + (d + (e + (f + g)))))
  {
    JoinHead(g, []);
    assert [g] + [] == [g] && g + "" == g;
    JoinHead(f, [g]);
    JoinHead(e, [f, g]);
    JoinHead(d, [e, f, g]);
    JoinHead(c, [d, e, f, g]);
    JoinHead(b, [c, d, e, f, g]);
    JoinHead(a, [b, c, d, e, f, g]);
    assert [a] + [b, c, d, e, f, g] == [a, b, c, d, e, f, g];
  }

  lemma {:induction false} SliceJoin(m: string, i: nat, j: nat)
    requires i <= j <= |m|
    ensures m[i..j] + m[j..] == m[i..]
  {
  }

  /** Both markers cut into four pieces at the same offsets as in the fourth case. */
  lemma {:induction false} FourPieces(h: string, o: string, t: string, cl: string, w: string)
    requires |o| >= 5 && |cl| >= 6
    ensures Join([h + o[..1], o[1..3], o[3..5], o[5..] + (t + cl[..2]), cl[2..4], cl[4..6], cl[6..] + w])
      == h + (o + (t + (cl + w)))
  {
    Join7(h + o[..1], o[1..3], o[3..5], o[5..] + (t + cl[..2]), cl[2..4], cl[4..6], cl[6..] + w);
    calc {
      cl[2..4] + (cl[4..6] + (cl[6..] + w));
      { SliceJoin(cl, 4, 6); }
      cl[2..4] + (cl[4..] + w);
      { SliceJoin(cl, 2, 4); }
      cl[2..] + w;
    }
    calc {
      (o[5..] + (t + cl[..2])) + (cl[2..] + w);
      o[5..] + (t + (cl[..2] + cl[2..] + w));
      { SliceJoin(cl, 0, 2); }
      o[5..] + (t + (cl + w));
    }
    var r := t + (cl + w);
    calc {
      (h + o[..1]) + (o[1..3] + (o[3..5] + (o[5..] + r)));
      { SliceJoin(o, 3, 5); }
      (h + o[..1]) + (o[1..3] + (o[3..] + r));
      { SliceJoin(o, 1, 3); }
      (h + o[..1]) + (o[1..] + r);
      { SliceJoin(o, 0, 1); }
      h + (o + r);
    }
  }

  /** However the chunks cut up `a<think>x</think>b`, with none of the three holding `<`,
      the outcome is `x` as reasoning and `a + b` as message. */
  lemma {:induction false} ChunksAroundBlock(c: seq<string>, a: string, x: string, b: string)
    requires forall i :: 0 <= i < |a| ==> a[i] != '<'
    requires forall i :: 0 <= i < |x| ==> x[i] != '<'
    requires forall i :: 0 <= i < |b| ==> b[i] != '<'
    requires Join(c) == a + (Open + (x + (Close + b)))
    ensures SplitAll(c) == Splitter(false, a + b, x, "")
  {
    SplitAllIsClassify(c);
    BlockThenTail(a, x, b);
  }

  /** ["Hello <think>", "thinking", "</think> world"]: markers on chunk boundaries. */
  lemma {:induction false} SplitOnBoundaries()
    ensures SplitAll(["Hello " + Open, "thinking", Close + " world"]) == Splitter(false, "Hello  world", "thinking", "")
  {
    var c := ["Hello " + Open, "thinking", Close + " world"];
    Join3(c[0], c[1], c[2]);
    assert ("Hello " + Open) + ("thinking" + (Close + " world")) == "Hello " + (Open + ("thinking" + (Close + " world")));
    ChunksAroundBlock(c, "Hello ", "thinking", " world");
  }

  /** ["Hello <thi", "nk>thinking</think> world"]: the opening marker cut in two. */
  lemma {:induction false} SplitOpenMarker()
    ensures SplitAll(["Hello " + Open[..4], Open[4..] + ("thinking" + (Close + " world"))])
      == Splitter(false, "Hello  world", "thinking", "")
  {
    var c := ["Hello " + Open[..4], Open[4..] + ("thinking" + (Close + " world"))];
    assert Join(c[2..]) == [];
    assert Join(c[1..]) == c[1];
    assert Join(c) == "Hello " + (Open + ("thinking" + (Close + " world")));
    ChunksAroundBlock(c, "Hello ", "thinking", " world");
  }

  /** ["Hello <think>thinking</thi", "nk> world"]: the closing marker cut in two. */
  lemma {:induction false} SplitCloseMarker()
    ensures SplitAll(["Hello " + (Open + ("thinking" + Close[..5])), Close[5..] + " world"])
      == Splitter(false, "Hello  world", "thinking", "")
  {
    var c := ["Hello " + (Open + ("thinking" + Close[..5])), Close[5..] + " world"];
    assert Join(c[2..]) == [];
    assert Join(c[1..]) == c[1];
    SliceJoin(Close, 0, 5);
    assert Join(c) == "Hello " + (Open + ("thinking" + (Close + " world")));
    ChunksAroundBlock(c, "Hello ", "thinking", " world");
  }

  /** ["Hello <", "th", "in", "k>thinking</", "th", "in", "k> world"]: both markers cut
      into four pieces. */
  lemma {:induction false} SplitManyPieces()
    ensures SplitAll(["Hello " + Open[..1], Open[1..3], Open[3..5], Open[5..] + ("thinking" + Close[..2]),
                      Close[2..4], Close[4..6], Close[6..] + " world"])
      == Splitter(false, "Hello  world", "thinking", "")
  {
    var c := ["Hello " + Open[..1], Open[1..3], Open[3..5], Open[5..] + ("thinking" + Close[..2]),
              Close[2..4], Close[4..6], Close[6..] + " world"];
    FourPieces("Hello ", Open, "thinking", Close, " world");
    ChunksAroundBlock(c, "Hello ", "thinking", " world");
  }

  /** ["Hello <think>thinking</think> world"]: a single chunk. */
  lemma {:induction false} SplitSingleChunk()
    ensures SplitAll(["Hello " + (Open + ("thinking" + (Close + " world")))])
      == Splitter(false, "Hello  world", "thinking", "")
  {
    var c := ["Hello " + (Open + ("thinking" + (Close + " world")))];
    assert Join(c[1..]) == [];
    assert Join(c) == c[0];
    ChunksAroundBlock(c, "Hello ", "thinking", " world");
  }

  /** ["A<thi", "nk>R1</think>B<think>R", "2</think>C"]: two blocks, cut inside a marker
      and inside the second block. */
  lemma {:induction false} SplitTwoBlocks()
    ensures SplitAll(["A" + Open[..4], Open[4..] + ("R1" + (Close + ("B" + (Open + "R")))), "2" + (Close + "C")])
      == Splitter(false, "ABC", "R1R2", "")
  {
    var c := ["A" + Open[..4], Open[4..] + ("R1" + (Close + ("B" + (Open + "R")))), "2" + (Close + "C")];
    assert Join(c[3..]) == [];
    assert Join(c[2..]) == c[2];
    assert Join(c[1..]) == Open[4..] + ("R1" + (Close + ("B" + (Open + ("R2" + (Close + "C"))))));
    assert Join(c) == "A" + (Open + ("R1" + (Close + ("B" + (Open + ("R2" + (Close + "C")))))));
    SplitAllIsClassify(c);
    TwoBlocksThenTail("A", "R1", "B", "R2", "C");
  }

  // ---------------------------------------------------------------------------------
  // Further consequences: nesting, hold-back, the final flush, and what splitting a
  // marker between two runs does.

  /** "<think>x<think>y</think>z": the inner `<think>` is reasoning text and the first
      `</think>` closes the block. */
  lemma {:induction false} OpenInsideIsText(x: string, y: string, z: string)
    requires forall i :: 0 <= i < |x| ==> x[i] != '<'
    requires forall i :: 0 <= i < |y| ==> y[i] != '<'
    requires forall i :: 0 <= i < |z| ==> z[i] != '<'
    ensures Classify(false, Open + (x + (Open + (y + (Close + z))))) == Splitter(false, z, x + (Open + y), "")
  {
    calc {
      Classify(false, Open + (x + (Open + (y + (Close + z)))));
      { ClassifyMarker(false, x + (Open + (y + (Close + z)))); }
      Classify(true, x + (Open + (y + (Close + z))));
      { ClassifyPlain(true, x, Open + (y + (Close + z))); }
      AndThen(Emit(true, x), Classify(true, Open + (y + (Close + z))));
      { OpenWhileThinking(y + (Close + z)); }
      AndThen(Emit(true, x), AndThen(Emit(true, Open), Classify(true, y + (Close + z))));
      { ClassifyPlain(true, y, Close + z); }
      AndThen(Emit(true, x), AndThen(Emit(true, Open), AndThen(Emit(true, y), Classify(true, Close + z))));
      { ClassifyMarker(true, z); }
      AndThen(Emit(true, x), AndThen(Emit(true, Open), AndThen(Emit(true, y), Classify(false, z))));
      { ClassifyTail(false, z); }
      AndThen(Emit(true, x), AndThen(Emit(true, Open), AndThen(Emit(true, y), Emit(false, z))));
      { assert y + "" == y; }
      Splitter(false, z, x + (Open + y), "");
    }
  }

  /** The same for `Scan`: text free of `<` is written at once, whatever follows it. */
  lemma {:induction false} ScanPlain(thinking: bool, a: string, y: string)
    requires forall i :: 0 <= i < |a| ==> a[i] != '<'
    ensures Scan(thinking, a + y) == AndThen(Emit(thinking, a), Scan(thinking, y))
    decreases |a|
  {
    var r := Scan(thinking, y);
    if a == [] {
      assert a + y == y;
      assert "" + r.message == r.message && "" + r.reasoning == r.reasoning;
    } else {
      var w := a + y;
      assert w[0] == a[0];
      assert !HasPrefix(w, Marker(thinking)) by {
        if |Marker(thinking)| <= |w| {
          assert w[..|Marker(thinking)|][0] == w[0];
        }
      }
      assert !IsPotentialTagPrefix(w, thinking) by {
        if |w| < |Marker(thinking)| {
          assert w[..|w|][0] == w[0];
          assert Marker(thinking)[..|w|][0] == '<';
        }
      }
      assert w[..1] == a[..1] && w[1..] == a[1..] + y;
      ScanPlain(thinking, a[1..], y);
      AndThenAssoc(Emit(thinking, a[..1]), Emit(thinking, a[1..]), r);
      assert a[..1] + a[1..] == a;
    }
  }

  /** A strict prefix of the current marker at the end of a chunk is held back. */
  lemma {:induction false} HoldsBackPrefix(a: string, k: nat)
    requires forall i :: 0 <= i < |a| ==> a[i] != '<'
    requires 0 < k < |Open|
    ensures Step(Initial, a + Open[..k]) == Splitter(false, a, "", Open[..k])
  {
    var w := Open[..k];
    assert "" + (a + w) == a + w;
    ScanPlain(false, a, w);
    assert !HasPrefix(w, Open);
    assert IsPotentialTagPrefix(w, false);
    assert Scan(false, w) == Splitter(false, "", "", w);
    assert a + "" == a && "" + a == a;
  }

  /** "Hello <thi" as the first chunk: "Hello " is written and "<thi" is held back. */
  lemma {:induction false} HoldsBackHello()
    ensures Step(Initial, "Hello " + Open[..4]) == Splitter(false, "Hello ", "", Open[..4])
  {
    HoldsBackPrefix("Hello ", 4);
  }

  /** A stream that ends on a held-back prefix ("done<th") writes it to the message at the
      flush: nothing is lost. */
  lemma {:induction false} FlushesHeldBack()
    ensures Step(Initial, "done" + Open[..3]) == Splitter(false, "done", "", Open[..3])
    ensures SplitAll(["done" + Open[..3]]) == Splitter(false, "done" + Open[..3], "", "")
  {
    var c := "done" + Open[..3];
    HoldsBackPrefix("done", 3);
    assert [c][1..] == [];
    assert FeedAll(Initial, [c]) == Step(Initial, c);
    assert "" + "" == "";
  }

  /** Only strict prefixes of the current marker are held back, not text that merely
      contains one. */
  lemma {:induction false} PotentialPrefixCases()
    ensures !IsPotentialTagPrefix("lo " + Open[..4], false)
    ensures IsPotentialTagPrefix(Open[..4], false) && !IsPotentialTagPrefix(Open[..4], true)
    ensures IsPotentialTagPrefix(Close[..5], true) && !IsPotentialTagPrefix(Close[..5], false)
    ensures !IsPotentialTagPrefix(Open, false) && !IsPotentialTagPrefix(Close, true)
  {
    assert ("lo " + Open[..4])[0] == 'l';
    assert Close[..5][1] == '/';
    assert Open[..4][1] == 't';
  }

  /** Markers are removed per run, not from the output as a whole: a marker split around a
      block, as in "<thi<think>x</think>nk>", reappears in the message once the block is
      taken out. */
  lemma {:induction false} SplitMarkerReassembles()
    ensures Classify(false, Open[..4] + (Open + ("x" + (Close + Open[4..])))) == Splitter(false, Open, "x", "")
  {
    BrokenOpenAroundBlock("x");
  }

  /** `SplitMarkerReassembles` for any block text without `<`. */
  lemma {:induction false} BrokenOpenAroundBlock(x: string)
    requires forall i :: 0 <= i < |x| ==> x[i] != '<'
    ensures Classify(false, Open[..4] + (Open + (x + (Close + Open[4..])))) == Splitter(false, Open, x, "")
  {
    var t := Open + (x + (Close + Open[4..]));
    var s := Open[..4] + t;
    NoOpenInBrokenHead(t, s);
    ClassifyUpTo(false, s, 4);
    assert s[..4] == Open[..4] && s[4..] == t;
    MarkerPieces();
    BlockThenTail("", x, Open[4..]);
    assert "" + t == t;
    assert Open[..4] + ("" + Open[4..]) == Open by {
      SliceJoin(Open, 0, 4);
      assert "" + Open[4..] == Open[4..];
    }
    assert "" + x == x;
  }

  /** The broken-off "<thi" followed by a `<think>` holds no `<think>` before the second. */
  lemma {:induction false} NoOpenInBrokenHead(t: string, s: string)
    requires HasPrefix(t, Open) && s == Open[..4] + t
    ensures forall i :: 0 <= i < 4 ==> !Occurs(s, Open, i)
  {
    forall i | 0 <= i < 4 ensures !Occurs(s, Open, i) {
      assert s[i] == Open[i] && s[4] == '<';
      if i + 7 <= |s| {
        assert s[i..i + 7][0] == s[i];
        if i == 0 {
          assert s[i..i + 7][4] == s[4];
        }
      }
    }
  }

  /** Single-character chunks: the finest chunking gives the unchunked outcome. */
  function Chars(s: string): (r: seq<string>)
    ensures |r| == |s|
    ensures forall i :: 0 <= i < |s| ==> r[i] == [s[i]]
  {
    seq(|s|, i requires 0 <= i < |s| => [s[i]])
  }

  lemma {:induction false} JoinChars(s: string)
    ensures Join(Chars(s)) == s
    decreases |s|
  {
    if s != [] {
      JoinChars(s[1..]);
      assert Chars(s)[1..] == Chars(s[1..]);
      assert [s[0]] + s[1..] == s;
    }
  }

  lemma {:induction false} CharByChar(s: string)
    ensures SplitAll(Chars(s)) == Classify(false, s)
  {
    JoinChars(s);
    SplitAllIsClassify(Chars(s));
  }

  // ---------------------------------------------------------------------------------
  // extractThinkBlocks and removeThinkBlocks. Both loops start the same way: the first
  // `<think>` (`startIdx`) and the first `</think>` after it, as an offset from it
  // (`endIdx`).

  /** An opening and a closing marker never overlap. */
  lemma {:induction false} MarkersApart(s: string, i: int, j: int)
    requires Occurs(s, Open, i) && Occurs(s, Close, j)
    ensures j + |Close| <= i || i + |Open| <= j
  {
    assert forall k :: i <= k < i + |Open| ==> s[k] == s[i..i + |Open|][k - i];
    assert forall k :: j <= k < j + |Close| ==> s[k] == s[j..j + |Close|][k - j];
    assert s[j] == '<' && s[j + 1] == '/';
    assert s[i] == '<' && s[i + 1] == 't';
  }

  /** `<think>` at `st`, none before it, and `</think>` at `st + e`, the first after it. */
  predicate BlockAt(s: string, st: int, e: int) {
    0 <= st && |Open| <= e && Occurs(s, Open, st) && Occurs(s, Close, st + e)
    && (forall i :: 0 <= i < st ==> !Occurs(s, Open, i))
    && (forall j :: st <= j < st + e ==> !Occurs(s, Close, j))
  }

  /** Some `<think>` is followed, somewhere later, by a `</think>`. */
  predicate HasClosedBlock(s: string) {
    exists i, j | 0 <= i <= j < |s| :: Occurs(s, Open, i) && Occurs(s, Close, j)
  }

  lemma {:induction false} BlockAtIndex(s: string, st: int, e: int)
    requires st == Index(s, Open) && st >= 0
    requires e == Index(s[st..], Close) && e >= 0
    ensures BlockAt(s, st, e)
  {
    OccursInSuffix(s, Close, st, e);
    MarkersApart(s, st, st + e);
    forall j | st <= j < st + e ensures !Occurs(s, Close, j) {
      OccursInSuffix(s, Close, st, j - st);
    }
  }

  function FindBlock(s: string): (r: Option<(int, int)>)
    ensures r.Some? ==> BlockAt(s, r.value.0, r.value.1)
  {
    var st := Index(s, Open);
    if st == -1 then None
    else
      var e := Index(s[st..], Close);
      if e == -1 then None else BlockAtIndex(s, st, e); Some((st, e))
  }

  /** Both loops go on exactly as long as a closed block is left. */
  lemma {:induction false} FindBlockIff(s: string)
    ensures FindBlock(s).Some? <==> HasClosedBlock(s)
  {
    if FindBlock(s).Some? {
      var (st, e) := FindBlock(s).value;
      assert Occurs(s, Open, st) && Occurs(s, Close, st + e);
    }
    if HasClosedBlock(s) {
      var i, j :| 0 <= i <= j < |s| && Occurs(s, Open, i) && Occurs(s, Close, j);
      var st := Index(s, Open);
      OccursInSuffix(s, Close, st, j - st);
    }
  }

  /** The text between the markers of a block: from the end of `<think>` at `st` to the
      `</think>` at `st + e`. */
  function Inside(s: string, st: int, e: int): (t: string)
    requires 0 <= st && |Open| <= e && st + e <= |s|
    ensures |t| == e - |Open|
  {
    s[st + |Open|..st + e]
  }

  /** The text after a block, from the end of its `</think>` on. */
  function After(s: string, st: int, e: int): (t: string)
    requires 0 <= st && 0 <= e && st + e + |Close| <= |s|
    ensures |t| < |s|
  {
    s[st + e + |Close|..]
  }

  /** The text with a block, markers included, cut out. */
  function CutOut(s: string, st: int, e: int): (t: string)
    requires 0 <= st && 0 <= e && st + e + |Close| <= |s|
    ensures |t| == |s| - e - |Close|
  {
    s[..st] + After(s, st, e)
  }

  /** extractThinkBlocks: the text between each `<think>` and the next `</think>`, in
      order, resuming after that `</think>`. */
  function ThinkBlocks(s: string): (r: seq<string>)
    decreases |s|
  {
    var f := FindBlock(s);
    if f.None? then [] else [Inside(s, f.value.0, f.value.1)] + ThinkBlocks(After(s, f.value.0, f.value.1))
  }

  method ExtractThinkBlocks(content: string) returns (blocks: seq<string>)
    ensures blocks == ThinkBlocks(content)
  {
    blocks := [];
    var c := content;
    while true
      invariant blocks + ThinkBlocks(c) == ThinkBlocks(content)
      decreases |c|
    {
      var startIdx := Index(c, Open);
      if startIdx == -1 {
        break;
      }
      var endIdx := Index(c[startIdx..], Close);
      if endIdx == -1 {
        break;
      }
      ExtractRound(blocks, c, startIdx, endIdx);
      blocks := blocks + [c[startIdx + |Open|..startIdx + endIdx]];
      c := c[startIdx + endIdx + |Close|..];
    }
    LoopDone(c);
    assert blocks + [] == blocks;
  }

  /** One round of extractThinkBlocks moves the first block from what is left to what
      has been found. */
  lemma {:induction false} ExtractRound(blocks: seq<string>, c: string, st: int, e: int)
    requires st == Index(c, Open) && st >= 0
    requires e == Index(c[st..], Close) && e >= 0
    ensures st + e + |Close| <= |c| && |Open| <= e
    ensures (blocks + [c[st + |Open|..st + e]]) + ThinkBlocks(c[st + e + |Close|..])
            == blocks + ThinkBlocks(c)
  {
    LoopStep(c, st, e);
    ExtractStep(c, st, e);
    var block, rest := c[st + |Open|..st + e], c[st + e + |Close|..];
    assert blocks + [block] + ThinkBlocks(rest) == blocks + ([block] + ThinkBlocks(rest));
  }

  /** One round of either loop: `startIdx` and `endIdx` locate the block that `FindBlock`
      reports. */
  lemma {:induction false} LoopStep(c: string, st: int, e: int)
    requires st == Index(c, Open) && st >= 0
    requires e == Index(c[st..], Close) && e >= 0
    ensures st + e + |Close| <= |c| && |Open| <= e
    ensures FindBlock(c) == Some((st, e))
  {
    BlockAtIndex(c, st, e);
  }

  /** Either loop stops exactly when there is no block for `FindBlock` to report. */
  lemma {:induction false} LoopDone(c: string)
    requires Index(c, Open) == -1 || Index(c[Index(c, Open)..], Close) == -1
    ensures FindBlock(c) == None
    ensures ThinkBlocks(c) == [] && WithoutThinkBlocks(c) == c
  {
  }

  /** The first block found is the first block extracted. */
  lemma {:induction false} ExtractStep(c: string, st: int, e: int)
    requires FindBlock(c) == Some((st, e))
    ensures st + e + |Close| <= |c| && |Open| <= e
    ensures ThinkBlocks(c) == [Inside(c, st, e)] + ThinkBlocks(After(c, st, e))
    ensures Inside(c, st, e) == c[st + |Open|..st + e] && After(c, st, e) == c[st + e + |Close|..]
  {
  }

  /** No block without a closed `<think>` ... `</think>` pair. */
  lemma {:induction false} ThinkBlocksEmptyIff(s: string)
    ensures ThinkBlocks(s) == [] <==> !HasClosedBlock(s)
  {
    FindBlockIff(s);
  }

  /** removeThinkBlocks: closed blocks are cut out, markers included, and the search starts
      over from the front of what is left, until no closed block remains. */
  function WithoutThinkBlocks(s: string): string
    decreases |s|
  {
    var f := FindBlock(s);
    if f.None? then s else WithoutThinkBlocks(CutOut(s, f.value.0, f.value.1))
  }

  /** One step of removeThinkBlocks, on a text whose first block is known. */
  lemma {:induction false} CutFirst(c: string, st: int, e: int)
    requires FindBlock(c) == Some((st, e))
    ensures st + e + |Close| <= |c| && |Open| <= e
    ensures WithoutThinkBlocks(c) == WithoutThinkBlocks(CutOut(c, st, e))
    ensures CutOut(c, st, e) == c[..st] + c[st + e + |Close|..]
  {
  }

  /** Cutting blocks out never lengthens the text. */
  lemma {:induction false} WithoutThinkBlocksShorter(s: string)
    ensures |WithoutThinkBlocks(s)| <= |s|
    decreases |s|
  {
    if FindBlock(s).Some? {
      var (st, e) := FindBlock(s).value;
      CutFirst(s, st, e);
      WithoutThinkBlocksShorter(CutOut(s, st, e));
    }
  }

  /** No closed block is left, not even one that cutting out another has formed. */
  lemma {:induction false} WithoutThinkBlocksClean(s: string)
    ensures !HasClosedBlock(WithoutThinkBlocks(s))
    decreases |s|
  {
    if FindBlock(s).Some? {
      var (st, e) := FindBlock(s).value;
      CutFirst(s, st, e);
      WithoutThinkBlocksClean(CutOut(s, st, e));
    } else {
      FindBlockIff(s);
    }
  }

  /** Text without a closed block is returned as it is. */
  lemma {:induction false} WithoutThinkBlocksKeeps(s: string)
    ensures !HasClosedBlock(s) ==> WithoutThinkBlocks(s) == s
  {
    FindBlockIff(s);
  }

  method RemoveThinkBlocks(content: string) returns (result: string)
    ensures result == WithoutThinkBlocks(content)
  {
    result := content;
    while true
      invariant WithoutThinkBlocks(result) == WithoutThinkBlocks(content)
      decreases |result|
    {
      var startIdx := Index(result, Open);
      if startIdx == -1 {
        break;
      }
      var endIdx := Index(result[startIdx..], Close);
      if endIdx == -1 {
        break;
      }
      RemoveStep(result, startIdx, endIdx);
      result := result[..startIdx] + result[startIdx + endIdx + |Close|..];
    }
    LoopDone(result);
  }

  lemma {:induction false} RemoveStep(c: string, st: int, e: int)
    requires st == Index(c, Open) && st >= 0
    requires e == Index(c[st..], Close) && e >= 0
    ensures st + e + |Close| <= |c|
    ensures WithoutThinkBlocks(c) == WithoutThinkBlocks(c[..st] + c[st + e + |Close|..])
  {
    LoopStep(c, st, e);
    CutFirst(c, st, e);
  }

  lemma {:induction false} WithoutThinkBlocksIdempotent(s: string)
    ensures WithoutThinkBlocks(WithoutThinkBlocks(s)) == WithoutThinkBlocks(s)
  {
    WithoutThinkBlocksClean(s);
    WithoutThinkBlocksKeeps(WithoutThinkBlocks(s));
  }

  // ---------------------------------------------------------------------------------
  // The blocks against the splitter, and what happens at an unclosed `<think>`.

  /** Around a block found by `FindBlock`, the splitter writes the text before it to the
      message and the text inside it to the reasoning. */
  lemma {:induction false} ClassifyAtBlock(s: string, st: int, e: int)
    requires BlockAt(s, st, e)
    ensures Classify(false, s)
      == AndThen(Splitter(false, s[..st], s[st + |Open|..st + e], ""), Classify(false, s[st + e + |Close|..]))
  {
    var u, k := s[st + |Open|..], e - |Open|;
    InsideBlock(s, st, e, u);
    ClassifyFirstMarker(false, s, st);
    ClassifyFirstMarker(true, u, k);
    var a, b := Emit(false, s[..st]), Emit(true, u[..k]);
    AndThenAssoc(a, b, Classify(false, u[k + |Close|..]));
    assert AndThen(a, b) == Splitter(true, s[..st], s[st + |Open|..st + e], "") by {
      assert s[..st] + "" == s[..st];
      assert "" + u[..k] == u[..k];
    }
  }

  /** Seen from the end of its `<think>`, a block's `</think>` is the first one. */
  lemma {:induction false} InsideBlock(s: string, st: int, e: int, u: string)
    requires BlockAt(s, st, e) && u == s[st + |Open|..]
    ensures Occurs(u, Close, e - |Open|)
    ensures forall i :: 0 <= i < e - |Open| ==> !Occurs(u, Close, i)
    ensures u[..e - |Open|] == s[st + |Open|..st + e]
    ensures u[e - |Open| + |Close|..] == s[st + e + |Close|..]
  {
    var k := e - |Open|;
    OccursInSuffix(s, Close, st + |Open|, k);
    forall i | 0 <= i < k ensures !Occurs(u, Close, i) {
      OccursInSuffix(s, Close, st + |Open|, i);
    }
  }

  /** With no closed block, the splitter ends inside a block exactly when there is a
      `<think>`, and otherwise writes everything to the message. */
  lemma {:induction false} ClassifyWithoutBlock(s: string)
    requires FindBlock(s).None?
    ensures Classify(false, s).thinking <==> Index(s, Open) >= 0
    ensures !Classify(false, s).thinking ==> Classify(false, s) == Splitter(false, s, "", "")
  {
    ClassifyRuns(false, s);
    var st := Index(s, Open);
    if st >= 0 {
      var u := s[st + |Open|..];
      forall i | 0 <= i ensures !Occurs(u, Close, i) {
        OccursInSuffix(s[st..], Close, |Open|, i);
        assert s[st..][|Open|..] == u;
      }
      ClassifyRuns(true, u);
    }
  }

  /** extractThinkBlocks agrees with the splitter: the blocks, joined, are the start of the
      reasoning, and all of it when the text does not end inside an unclosed block. */
  lemma {:induction false} ThinkBlocksAreReasoning(s: string)
    ensures HasPrefix(Classify(false, s).reasoning, Join(ThinkBlocks(s)))
    ensures !Classify(false, s).thinking ==> Classify(false, s).reasoning == Join(ThinkBlocks(s))
    decreases |s|
  {
    var st := Index(s, Open);
    var e := if st >= 0 then Index(s[st..], Close) else -1;
    if st >= 0 && e >= 0 {
      LoopStep(s, st, e);
      ExtractStep(s, st, e);
      var b, rest := s[st + |Open|..st + e], s[st + e + |Close|..];
      ClassifyAtBlock(s, st, e);
      ThinkBlocksAreReasoning(rest);
      JoinHead(b, ThinkBlocks(rest));
      PrefixCons(b, Classify(false, rest).reasoning, Join(ThinkBlocks(rest)));
    } else {
      LoopDone(s);
      ClassifyWithoutBlock(s);
      assert Classify(false, s).reasoning[..0] == "";
    }
  }

  lemma {:induction false} PrefixCons(b: string, r: string, j: string)
    requires HasPrefix(r, j)
    ensures HasPrefix(b + r, b + j)
  {
    assert (b + r)[..|b + j|] == b + r[..|j|];
  }

  /** A `<think>` with no `</think>` anywhere after it. */
  ghost predicate Unclosed(s: string, u: int) {
    Occurs(s, Open, u) && forall j :: Occurs(s, Close, j) ==> j < u
  }

  lemma {:induction false} BlockAtUnique(s: string, st: int, e: int, st': int, e': int)
    requires BlockAt(s, st, e) && BlockAt(s, st', e')
    ensures st == st' && e == e'
  {
  }

  /** The first closed block lies wholly before an unclosed `<think>`, so cutting the text
      there does not change it. */
  lemma {:induction false} FindBlockBeforeUnclosed(s: string, u: int)
    requires Unclosed(s, u)
    ensures FindBlock(s[..u]) == FindBlock(s)
    ensures FindBlock(s).Some? ==> FindBlock(s).value.0 + FindBlock(s).value.1 + |Close| <= u
  {
    if FindBlock(s).Some? {
      var (st, e) := FindBlock(s).value;
      MarkersApart(s, u, st + e);
      BlockInPrefix(s, u, st, e);
      FindBlockIff(s[..u]);
      var (st', e') := FindBlock(s[..u]).value;
      BlockAtUnique(s[..u], st, e, st', e');
    } else {
      FindBlockIff(s);
      NoBlockInPrefix(s, u);
      FindBlockIff(s[..u]);
    }
  }

  /** A block that ends by `u` is a block of `s[..u]`. */
  lemma {:induction false} BlockInPrefix(s: string, u: int, st: int, e: int)
    requires BlockAt(s, st, e) && 0 <= u <= |s| && st + e + |Close| <= u
    ensures BlockAt(s[..u], st, e)
  {
    OccursInPrefix(s, Open, u, st);
    OccursInPrefix(s, Close, u, st + e);
    forall i | 0 <= i < st ensures !Occurs(s[..u], Open, i) {
      OccursInPrefix(s, Open, u, i);
    }
    forall j | st <= j < st + e ensures !Occurs(s[..u], Close, j) {
      OccursInPrefix(s, Close, u, j);
    }
  }

  /** With no closed block in `s`, there is none in a prefix of it either. */
  lemma {:induction false} NoBlockInPrefix(s: string, u: int)
    requires !HasClosedBlock(s) && 0 <= u <= |s|
    ensures !HasClosedBlock(s[..u])
  {
    forall i, j | 0 <= i <= j < u && Occurs(s[..u], Open, i) ensures !Occurs(s[..u], Close, j) {
      OccursInPrefix(s, Open, u, i);
      OccursInPrefix(s, Close, u, j);
    }
  }

  /** The tail after a block is still unclosed at the same `<think>`. */
  lemma {:induction false} UnclosedAfterBlock(s: string, k: int, u: int)
    requires Unclosed(s, u) && 0 <= k <= u
    ensures Unclosed(s[k..], u - k)
  {
    OccursInSuffix(s, Open, k, u - k);
    forall j | Occurs(s[k..], Close, j) ensures j < u - k {
      OccursInSuffix(s, Close, k, j);
    }
  }

  /** extractThinkBlocks stops at the first unclosed `<think>`: nothing from there on
      contributes a block. */
  lemma {:induction false} ThinkBlocksStopAtUnclosed(s: string, u: int)
    requires Unclosed(s, u)
    ensures ThinkBlocks(s) == ThinkBlocks(s[..u])
    decreases |s|
  {
    FindBlockBeforeUnclosed(s, u);
    if FindBlock(s).Some? {
      var (st, e) := FindBlock(s).value;
      var k := st + e + |Close|;
      UnclosedAfterBlock(s, k, u);
      ThinkBlocksStopAtUnclosed(s[k..], u - k);
      AfterOfPrefix(s, u, st, e);
      StopStep(s, u, st, e);
    }
  }

  /** The inductive step of `ThinkBlocksStopAtUnclosed`: the same first block, then the
      same blocks after it. */
  lemma {:induction false} StopStep(s: string, u: int, st: int, e: int)
    requires 0 <= st && |Open| <= e && st + e + |Close| <= u <= |s|
    requires FindBlock(s) == Some((st, e)) && FindBlock(s[..u]) == Some((st, e))
    requires ThinkBlocks(After(s, st, e)) == ThinkBlocks(After(s[..u], st, e))
    ensures ThinkBlocks(s) == ThinkBlocks(s[..u])
  {
    ExtractStep(s, st, e);
    ExtractStep(s[..u], st, e);
    InsideOfPrefix(s, u, st, e);
  }

  /** A block inside a prefix has the same text as in the whole text. */
  lemma {:induction false} InsideOfPrefix(s: string, u: int, st: int, e: int)
    requires 0 <= st && |Open| <= e && st + e <= u <= |s|
    ensures Inside(s[..u], st, e) == Inside(s, st, e)
  {
    SlicesOfPrefix(s, u, st + |Open|, st + e, u);
  }

  /** What follows a block, in the whole text and in a prefix that holds the block. */
  lemma {:induction false} AfterOfPrefix(s: string, u: int, st: int, e: int)
    requires 0 <= st && 0 <= e && st + e + |Close| <= u <= |s|
    ensures After(s, st, e) == s[st + e + |Close|..]
    ensures After(s[..u], st, e) == s[st + e + |Close|..][..u - (st + e + |Close|)]
  {
    SlicesOfPrefix(s, u, 0, 0, st + e + |Close|);
  }

  /** Slicing inside a prefix is slicing the whole text. */
  lemma {:induction false} SlicesOfPrefix(s: string, u: int, a: int, b: int, k: int)
    requires 0 <= a <= b <= u <= |s| && 0 <= k <= u
    ensures s[..u][a..b] == s[a..b]
    ensures s[..u][k..] == s[k..][..u - k]
  {
  }

  /** Cutting out a block ahead of an unclosed `<think>` keeps it unclosed. */
  lemma {:induction false} UnclosedAfterCut(s: string, st: int, k: int, u: int, t: string)
    requires Unclosed(s, u) && 0 <= st <= k <= u
    requires t == s[..st] + s[k..]
    ensures Unclosed(t, u - (k - st))
  {
    assert t[st..] == s[k..];
    OccursInSuffix(t, Open, st, u - k);
    OccursInSuffix(s, Open, k, u - k);
    forall j | Occurs(t, Close, j) ensures j < u - (k - st) {
      if j >= st {
        OccursInSuffix(t, Close, st, j - st);
        OccursInSuffix(s, Close, k, j - st);
      }
    }
  }

  /** `UnclosedAfterCut` for the block `CutOut` removes. */
  lemma {:induction false} UnclosedAfterCutOut(s: string, u: int, st: int, e: int)
    requires Unclosed(s, u) && 0 <= st && 0 <= e && st + e + |Close| <= u
    ensures u <= |s|
    ensures Unclosed(CutOut(s, st, e), u - (e + |Close|))
  {
    UnclosedAfterCut(s, st, st + e + |Close|, u, CutOut(s, st, e));
  }

  /** removeThinkBlocks leaves the text from the first unclosed `<think>` on as it is, and
      what comes before it is treated as if the text ended there. */
  lemma {:induction false} WithoutThinkBlocksKeepsUnclosed(s: string, u: int)
    requires Unclosed(s, u)
    ensures WithoutThinkBlocks(s) == WithoutThinkBlocks(s[..u]) + s[u..]
    decreases |s|
  {
    FindBlockBeforeUnclosed(s, u);
    if FindBlock(s).Some? {
      var (st, e) := FindBlock(s).value;
      UnclosedAfterCutOut(s, u, st, e);
      WithoutThinkBlocksKeepsUnclosed(CutOut(s, st, e), u - (e + |Close|));
      KeepStep(s, u, st, e);
    } else {
      KeepNone(s, u);
    }
  }

  /** The inductive step of `WithoutThinkBlocksKeepsUnclosed`: the same first block is cut
      out of `s` and of `s[..u]`. */
  lemma {:induction false} KeepStep(s: string, u: int, st: int, e: int)
    requires 0 <= st && 0 <= e && st + e + |Close| <= u <= |s|
    requires FindBlock(s) == Some((st, e)) && FindBlock(s[..u]) == Some((st, e))
    requires var t, v := CutOut(s, st, e), u - (e + |Close|);
      WithoutThinkBlocks(t) == WithoutThinkBlocks(t[..v]) + t[v..]
    ensures WithoutThinkBlocks(s) == WithoutThinkBlocks(s[..u]) + s[u..]
  {
    CutFirst(s, st, e);
    CutFirst(s[..u], st, e);
    CutOutOfPrefix(s, u, st, e);
  }

  /** Cutting a block out of a prefix that holds it is cutting it out of the whole text
      and keeping the same prefix of the result. */
  lemma {:induction false} CutOutOfPrefix(s: string, u: int, st: int, e: int)
    requires 0 <= st && 0 <= e && st + e + |Close| <= u <= |s|
    ensures CutOut(s[..u], st, e) == CutOut(s, st, e)[..u - (e + |Close|)]
    ensures CutOut(s, st, e)[u - (e + |Close|)..] == s[u..]
  {
    var k := st + e + |Close|;
    CutPrefix(s, st, k, u, s[..st] + s[k..], u - (k - st));
  }

  lemma {:induction false} KeepNone(s: string, u: int)
    requires 0 <= u <= |s| && FindBlock(s) == None && FindBlock(s[..u]) == None
    ensures WithoutThinkBlocks(s) == WithoutThinkBlocks(s[..u]) + s[u..]
  {
    assert s == s[..u] + s[u..];
  }

  /** Cutting `s[st..k]` out and then keeping what lies before the former `s[u]` is the
      same as cutting it out of `s[..u]`. */
  lemma {:induction false} CutPrefix(s: string, st: int, k: int, u: int, t: string, v: int)
    requires 0 <= st <= k <= u <= |s| && t == s[..st] + s[k..] && v == u - (k - st)
    ensures 0 <= v <= |t|
    ensures t[..v] == s[..u][..st] + s[..u][k..]
    ensures t[v..] == s[u..]
  {
  }
}
