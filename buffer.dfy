/**
 * The bounded translation buffer: every `response.text.delta` message on the
 * data channel appends its fragment, and the buffer keeps only its last
 * `charLimit` characters, computed with JavaScript's `String.prototype.slice`.
 */
module TranslationBuffer {
  import opened Wrappers

  function Min(a: int, b: int): int { if a <= b then a else b }

  /**
   * `s.slice(start)` for a JavaScript string: a negative start counts back
   * from the end and is clamped to 0, a non-negative start is clamped to |s|.
   * Either way the result is a suffix of `s`.
   */
  function SliceFrom(s: string, start: int): (r: string)
    ensures |r| <= |s| && r == s[|s| - |r|..]
    ensures start < 0 ==> |r| == Min(-start, |s|)
    ensures start >= 0 ==> |r| == |s| - Min(start, |s|)
  {
    if start < 0 then
      (if -start <= |s| then s[|s| + start..] else s)
    else
      (if start <= |s| then s[start..] else [])
  }

  /** Reference definition: the last `n` characters of `s`, or all of `s` when it is shorter. */
  function Suffix(s: string, n: nat): (r: string)
    ensures |r| == Min(n, |s|)
  {
    s[|s| - Min(n, |s|)..]
  }

  /** The concatenation of a stream of fragments, in arrival order. */
  function Concat(fragments: seq<string>): string
  {
    if fragments == [] then "" else fragments[0] + Concat(fragments[1..])
  }

  /**
   * One buffer update, `(prev + delta).slice(-charLimit)`.
   * Note that `slice(-0)` is `slice(0)`: a limit of 0 keeps everything.
   */
  function Step(prev: string, delta: string, charLimit: int): (r: string)
    ensures charLimit >= 1 ==> |r| <= charLimit
    ensures charLimit >= 1 ==> r == Suffix(prev + delta, charLimit)
    ensures charLimit >= 0 && |prev + delta| <= charLimit ==> r == prev + delta
    ensures charLimit == 0 ==> r == prev + delta
  {
    SliceFrom(prev + delta, -charLimit)
  }

  /** The message type whose fragment is appended to the buffer. */
  const DeltaType := "response.text.delta"

  /**
   * A data-channel message after `JSON.parse`: its `type` and its `delta`
   * field, or a payload that does not parse. An absent `delta` is `None`;
   * `Some(t)` carries the text `+` renders, so a non-string `delta` such as
   * `5` or `null` arrives as "5" or "null".
   */
  datatype ChannelMessage = Parsed(kind: string, delta: Option<string>) | Unparsable

  predicate IsDelta(msg: ChannelMessage)
  {
    msg.Parsed? && msg.kind == DeltaType
  }

  /**
   * The buffer after one data-channel message: only a delta message updates
   * it, every other message (and one that fails to parse) leaves it alone.
   */
  function Receive(prev: string, msg: ChannelMessage, charLimit: int): (r: string)
    ensures !IsDelta(msg) ==> r == prev
    ensures IsDelta(msg) && charLimit >= 1 ==> r == Suffix(prev + Interpolated(msg.delta), charLimit)
    ensures charLimit >= 1 && |prev| <= charLimit ==> |r| <= charLimit
  {
    if IsDelta(msg) then Step(prev, Interpolated(msg.delta), charLimit) else prev
  }

  /** The text a message contributes to the stream: its fragment if it is a delta, else nothing. */
  function Contributed(msg: ChannelMessage): string
  {
    if IsDelta(msg) then Interpolated(msg.delta) else ""
  }

  /**
   * A buffer that is the window of the stream so far stays the window of the
   * stream once the message's contribution is appended.
   */
  lemma ReceiveKeepsWindow(stream: string, msg: ChannelMessage, charLimit: int)
    requires charLimit >= 1
    ensures Receive(Suffix(stream, charLimit), msg, charLimit) == Suffix(stream + Contributed(msg), charLimit)
  {
    if IsDelta(msg) {
      SuffixOfSuffix(stream, Interpolated(msg.delta), charLimit);
    } else {
      assert stream + Contributed(msg) == stream;
      SuffixOfSuffix(stream, "", charLimit);
      assert Suffix(stream, charLimit) + "" == Suffix(stream, charLimit);
    }
  }

  /** The buffer after a stream of delta fragments, one `Step` per fragment. */
  function Feed(prev: string, fragments: seq<string>, charLimit: int): string
    decreases |fragments|
  {
    if fragments == [] then prev
    else Feed(Step(prev, fragments[0], charLimit), fragments[1..], charLimit)
  }

  /** Truncating an intermediate buffer loses nothing the final window needs. */
  lemma SuffixOfSuffix(a: string, b: string, n: nat)
    ensures Suffix(Suffix(a, n) + b, n) == Suffix(a + b, n)
  {
    var sa := Suffix(a, n);
    if |b| >= n {
      assert Suffix(sa + b, n) == b[|b| - n..];
      assert Suffix(a + b, n) == b[|b| - n..];
    } else {
      var k := Min(n, |a| + |b|);
      var ra := Suffix(a + b, n);
      var rs := Suffix(sa + b, n);
      assert |sa| == Min(n, |a|);
      assert |rs| == k;
      forall i | 0 <= i < k ensures rs[i] == ra[i] {
        if i < k - |b| {
          assert rs[i] == sa[|sa| + |b| - k + i];
          assert sa[|sa| + |b| - k + i] == a[|a| + |b| - k + i];
        }
      }
    }
  }

  /** One step of `Feed` keeps the window of the buffer extended by the first fragment. */
  lemma FeedUnfold(prev: string, fragments: seq<string>, charLimit: int)
    requires charLimit >= 1 && fragments != []
    ensures Feed(prev, fragments, charLimit) == Feed(Suffix(prev + fragments[0], charLimit), fragments[1..], charLimit)
  {
  }

  lemma ConcatCons(prev: string, fragments: seq<string>)
    requires fragments != []
    ensures prev + Concat(fragments) == (prev + fragments[0]) + Concat(fragments[1..])
  {
  }

  /**
   * Keeping the suffix after every fragment gives the suffix of the whole
   * concatenated stream, starting from any buffer already within the limit.
   */
  lemma {:induction false} FeedIsSuffixOfStream(prev: string, fragments: seq<string>, charLimit: int)
    requires charLimit >= 1 && |prev| <= charLimit
    ensures Feed(prev, fragments, charLimit) == Suffix(prev + Concat(fragments), charLimit)
    decreases |fragments|
  {
    if fragments == [] {
      assert prev + Concat(fragments) == prev;
    } else {
      var head := prev + fragments[0];
      FeedUnfold(prev, fragments, charLimit);
      FeedIsSuffixOfStream(Suffix(head, charLimit), fragments[1..], charLimit);
      SuffixOfSuffix(head, Concat(fragments[1..]), charLimit);
      ConcatCons(prev, fragments);
    }
  }

  /**
   * From an empty buffer, the buffer is the last min(total, charLimit)
   * characters of everything received.
   */
  lemma FeedFromEmpty(fragments: seq<string>, charLimit: int)
    requires charLimit >= 1
    ensures Feed("", fragments, charLimit) == Suffix(Concat(fragments), charLimit)
    ensures |Feed("", fragments, charLimit)| == Min(|Concat(fragments)|, charLimit)
  {
    FeedIsSuffixOfStream("", fragments, charLimit);
    assert "" + Concat(fragments) == Concat(fragments);
  }

  /** Fragments "He", "llo wor", "ld!" with a limit of 5 end in the last five characters of "Hello world!". */
  lemma HelloWorldScenario()
    ensures Step("", "He", 5) == "He"
    ensures Step("He", "llo wor", 5) == "o wor"
    ensures Step("o wor", "ld!", 5) == "orld!"
    ensures Feed("", ["He", "llo wor", "ld!"], 5) == "orld!"
  {
    var fs := ["He", "llo wor", "ld!"];
    assert fs[1..] == ["llo wor", "ld!"];
    assert fs[1..][1..] == ["ld!"];
    assert fs[1..][1..][1..] == [];
  }
}
