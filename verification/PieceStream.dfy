/** A buffered reader of pieces of text, and why the boundaries of the chunks it is fed do not matter. */
module PieceStream {
  import opened Common

  /**
   * A reader makes one attempt at the front of a buffer: Some message and the shorter rest, or None
   * and the buffer as it leaves it. It finds nothing in nothing.
   */
  ghost predicate Sound<M(!new)>(read: string -> (Option<M>, string)) {
    read("") == (None, "") && forall buffer :: read(buffer).0.Some? ==> |read(buffer).1| < |buffer|
  }

  /** Messages are taken off until an attempt answers None. */
  function Drain<M(!new)>(read: string -> (Option<M>, string), buffer: string): (seq<M>, string)
    requires Sound(read)
    decreases |buffer|
  {
    var (message, rest) := read(buffer);
    if message.None? then ([], rest)
    else
      var (more, left) := Drain(read, rest);
      ([message.value] + more, left)
  }

  /** What a connection has delivered and still holds after a sequence of chunks. */
  function Feed<M(!new)>(read: string -> (Option<M>, string), chunks: seq<string>): (seq<M>, string)
    requires Sound(read)
  {
    if chunks == [] then ([], "")
    else
      var (delivered, buffer) := Feed(read, chunks[..|chunks| - 1]);
      var (more, left) := Drain(read, buffer + chunks[|chunks| - 1]);
      (delivered + more, left)
  }

  lemma FeedSnoc<M(!new)>(read: string -> (Option<M>, string), chunks: seq<string>, last: string)
    requires Sound(read)
    ensures var (delivered, buffer) := Feed(read, chunks);
            var (more, left) := Drain(read, buffer + last);
            Feed(read, chunks + [last]) == (delivered + more, left)
  {
    assert (chunks + [last])[..|chunks|] == chunks;
  }

  // ---------------------------------------------------------------------------------------------
  // A stream made of pieces, under every chunking

  /** The piece f of a stream carries m: taken off whole whatever follows, and waited for otherwise. */
  ghost predicate Carries<M(!new)>(read: string -> (Option<M>, string), f: string, m: M) {
    && f != ""
    && (forall rest {:trigger f + rest} :: read(f + rest) == (Some(m), rest))
    && (forall k :: 0 <= k < |f| ==> read(f[..k]) == (None, f[..k]))
  }

  ghost predicate AllCarry<M(!new)>(read: string -> (Option<M>, string), frames: seq<string>, ms: seq<M>) {
    |frames| == |ms| && forall k :: 0 <= k < |frames| ==> Carries(read, frames[k], ms[k])
  }

  /** How many of the frames are complete within the first `length` characters of their stream. */
  function Complete(frames: seq<string>, length: nat): (n: nat)
    ensures n <= |frames|
  {
    if frames == [] || length < |frames[0]| then 0 else 1 + Complete(frames[1..], length - |frames[0]|)
  }

  lemma DrainOne<M(!new)>(read: string -> (Option<M>, string), f: string, m: M, rest: string)
    requires Sound(read) && Carries(read, f, m)
    ensures Drain(read, f + rest) == ([m] + Drain(read, rest).0, Drain(read, rest).1)
  {
    assert read(f + rest) == (Some(m), rest);
  }

  lemma DrainStops<M(!new)>(read: string -> (Option<M>, string), buffer: string, rest: string)
    requires Sound(read) && read(buffer) == (None, rest)
    ensures Drain(read, buffer) == ([], rest)
  {
  }

  lemma CutAt(f: string, rest: string, s: string)
    requires s <= f + rest
    ensures |s| < |f| ==> s == f[..|s|]
    ensures |s| >= |f| ==> s == f + s[|f|..] && s[|f|..] <= rest
  {
    assert s == (f + rest)[..|s|];
  }

  lemma TakeOneMore<T>(s: seq<T>, n: nat)
    requires 0 < n <= |s|
    ensures s[..n] == [s[0]] + s[1..][..n - 1]
  {
  }

  lemma CompleteFirst(frames: seq<string>, length: nat)
    requires frames != [] && length >= |frames[0]|
    ensures var n := Complete(frames, length);
            && n > 0 && n - 1 == Complete(frames[1..], length - |frames[0]|)
            && Flatten(frames[..n]) == frames[0] + Flatten(frames[1..][..n - 1])
  {
    var n := Complete(frames, length);
    assert frames[..n][1..] == frames[1..][..n - 1];
  }

  /** From a prefix of the stream, exactly the complete frames are delivered and the rest is kept. */
  lemma {:induction false} DrainPrefix<M(!new)>(read: string -> (Option<M>, string), frames: seq<string>,
                                               ms: seq<M>, s: string)
    requires Sound(read) && AllCarry(read, frames, ms) && s <= Flatten(frames)
    ensures var n := Complete(frames, |s|);
            && Drain(read, s).0 == ms[..n]
            && Flatten(frames[..n]) + Drain(read, s).1 == s
  {
    if frames == [] {
      assert frames[..0] == [] && ms[..0] == [] && s == "";
      DrainStops(read, s, s);
    } else {
      var f := frames[0];
      assert Carries(read, f, ms[0]);
      CutAt(f, Flatten(frames[1..]), s);
      if |s| < |f| {
        assert frames[..0] == [] && ms[..0] == [];
        DrainStops(read, s, s);
      } else {
        var tail, n := s[|f|..], Complete(frames, |s|);
        DrainOne(read, f, ms[0], tail);
        assert AllCarry(read, frames[1..], ms[1..]);
        DrainPrefix(read, frames[1..], ms[1..], tail);
        CompleteFirst(frames, |s|);
        TakeOneMore(ms, n);
        ConcatAssociates(f, Flatten(frames[1..][..n - 1]), Drain(read, tail).1);
      }
    }
  }

  lemma {:induction false} CompleteAppend(a: seq<string>, b: seq<string>, length: nat)
    requires length >= |Flatten(a)|
    ensures Complete(a + b, length) == |a| + Complete(b, length - |Flatten(a)|)
  {
    if a == [] {
      assert a + b == b;
    } else {
      assert (a + b)[1..] == a[1..] + b;
      CompleteAppend(a[1..], b, length - |a[0]|);
    }
  }

  /**
   * Whatever chunks a prefix of the stream arrives in, what has been delivered is exactly the messages
   * whose frames are complete within that prefix, in order, and the buffer holds exactly the rest.
   */
  lemma {:induction false} FeedPrefix<M(!new)>(read: string -> (Option<M>, string), frames: seq<string>,
                                              ms: seq<M>, chunks: seq<string>)
    requires Sound(read) && AllCarry(read, frames, ms) && Flatten(chunks) <= Flatten(frames)
    ensures var n := Complete(frames, |Flatten(chunks)|);
            && Feed(read, chunks).0 == ms[..n]
            && Flatten(frames[..n]) + Feed(read, chunks).1 == Flatten(chunks)
  {
    if chunks == [] {
      assert frames[..0] == [];
    } else {
      var init, last := chunks[..|chunks| - 1], chunks[|chunks| - 1];
      assert chunks == init + [last];
      FlattenSnoc(init, last);
      FeedPrefix(read, frames, ms, init);
      FeedOneMore(read, frames, ms, Complete(frames, |Flatten(init)|), Feed(read, init).1, last);
      assert Feed(read, chunks).0 == Feed(read, init).0 + Drain(read, Feed(read, init).1 + last).0;
    }
  }

  lemma FeedOneMore<M(!new)>(read: string -> (Option<M>, string), frames: seq<string>, ms: seq<M>, m: nat, buffer: string,
                             chunk: string)
    requires Sound(read) && AllCarry(read, frames, ms) && m <= |frames|
    requires Flatten(frames[..m]) + buffer + chunk <= Flatten(frames)
    ensures var n := Complete(frames, |Flatten(frames[..m]) + buffer + chunk|);
            && ms[..m] + Drain(read, buffer + chunk).0 == ms[..n]
            && Flatten(frames[..n]) + Drain(read, buffer + chunk).1 == Flatten(frames[..m]) + buffer + chunk
  {
    var done, todo, s := frames[..m], frames[m..], buffer + chunk;
    assert Flatten(done) + buffer + chunk == Flatten(done) + s;
    assert frames == done + todo;
    FlattenAppend(done, todo);
    CancelPrefix(Flatten(done), s, Flatten(todo));
    assert AllCarry(read, todo, ms[m..]);
    DrainPrefix(read, todo, ms[m..], s);
    CompleteAppend(done, todo, |Flatten(done) + s|);
    var k := Complete(todo, |s|);
    TakeSplit(frames, m, k);
    TakeSplit(ms, m, k);
    FlattenAppend(done, todo[..k]);
    Associate(Flatten(done), Flatten(todo[..k]), Drain(read, s).1, s);
  }

  lemma CancelPrefix(a: string, s: string, t: string)
    requires a + s <= a + t
    ensures s <= t
  {
    assert s == (a + s)[|a|..] && t == (a + t)[|a|..];
  }

  lemma TakeSplit<T>(s: seq<T>, m: nat, k: nat)
    requires m + k <= |s|
    ensures s[..m + k] == s[..m] + s[m..][..k]
  {
  }

  lemma Associate(a: string, b: string, c: string, s: string)
    requires b + c == s
    ensures a + b + c == a + s
  {
  }

  lemma {:induction false} AllComplete(frames: seq<string>)
    ensures Complete(frames, |Flatten(frames)|) == |frames|
  {
    if frames != [] { AllComplete(frames[1..]); }
  }

  /** The whole stream, in any chunks whatsoever, is delivered exactly, in order, with nothing left over. */
  lemma FeedAll<M(!new)>(read: string -> (Option<M>, string), frames: seq<string>, ms: seq<M>, chunks: seq<string>)
    requires Sound(read) && AllCarry(read, frames, ms) && Flatten(chunks) == Flatten(frames)
    ensures Feed(read, chunks) == (ms, "")
  {
    FeedPrefix(read, frames, ms, chunks);
    AllComplete(frames);
    assert frames[..|frames|] == frames && ms[..|frames|] == ms;
    assert |Feed(read, chunks).1| == 0;
  }

  // ---------------------------------------------------------------------------------------------
  // Readers that never drop anything

  /** What a reader takes is not affected by what follows, and when it takes nothing it leaves everything. */
  ghost predicate Stable<M(!new)>(read: string -> (Option<M>, string)) {
    && (forall a, b {:trigger a + b} :: read(a).0.Some? ==> read(a + b) == (read(a).0, read(a).1 + b))
    && (forall a :: read(a).0.None? ==> read(a) == (None, a))
  }

  lemma {:induction false} DrainAppend<M(!new)>(read: string -> (Option<M>, string), a: string, b: string)
    requires Sound(read) && Stable(read)
    ensures var (first, left) := Drain(read, a);
            var (second, rest) := Drain(read, left + b);
            Drain(read, a + b) == (first + second, rest)
    decreases |a|
  {
    if read(a).0.Some? {
      assert read(a + b) == (read(a).0, read(a).1 + b);
      DrainAppend(read, read(a).1, b);
      var (more, left) := Drain(read, read(a).1);
      var second := Drain(read, left + b).0;
      assert [read(a).0.value] + (more + second) == ([read(a).0.value] + more) + second;
    } else {
      assert [] + Drain(read, a + b).0 == Drain(read, a + b).0;
    }
  }

  /** For a stable reader the chunks do not matter at all: feeding them is draining their concatenation. */
  lemma {:induction false} FeedIsDrain<M(!new)>(read: string -> (Option<M>, string), chunks: seq<string>)
    requires Sound(read) && Stable(read)
    ensures Feed(read, chunks) == Drain(read, Flatten(chunks))
  {
    if chunks == [] {
      DrainStops(read, "", "");
    } else {
      var init, last := chunks[..|chunks| - 1], chunks[|chunks| - 1];
      assert chunks == init + [last];
      FlattenSnoc(init, last);
      FeedIsDrain(read, init);
      DrainAppend(read, Flatten(init), last);
    }
  }
}
