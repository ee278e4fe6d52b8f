/** One file on its way through the download relay: the fetch that fills it chunk by chunk, and a
    reader that follows the growing file while the fetch goes on beside it. */
module DownloadStream {
  import opened Common

  type byte = bv8

  /** What reading the upstream body yields, and whether the chunk could be written to the file; a source
      that ends without `Eof` ran into the timeout. */
  datatype Read = Data(bytes: seq<byte>, stored: bool) | Eof | Broken

  /** The head of the upstream answer; the length is negative if none was announced, and the content type
      is in lower case. */
  datatype Head = Head(status: nat, expected: int, contentType: string)

  /** The local file: whether it can be made, and closed after the last chunk. */
  datatype Disk = Disk(opens: bool, closes: bool)

  datatype Outcome = Ended | Aborted | Left

  function Prepend(head: seq<byte>, tail: Option<seq<byte>>): Option<seq<byte>>
  {
    if tail.None? then None else Some(head + tail.value)
  }

  /** The upstream body from position `i` on, if it arrives in full. */
  function Body(source: seq<Read>, i: nat): Option<seq<byte>>
    requires i <= |source|
    decreases |source| - i
  {
    if i == |source| then None
    else match source[i]
      case Eof => Some([])
      case Broken => None
      case Data(b, stored) => if stored then Prepend(b, Body(source, i + 1)) else None
  }

  predicate Mentions(text: string, word: string)
  {
    word <= text || (text != "" && Mentions(text[1..], word))
  }

  predicate OccursAt(text: string, word: string, i: int)
  {
    0 <= i && i + |word| <= |text| && text[i..i + |word|] == word
  }

  lemma {:induction false} MentionsExactly(text: string, word: string)
    requires word != ""
    ensures Mentions(text, word) <==> exists i :: OccursAt(text, word, i)
    decreases |text|
  {
    if word <= text {
      assert OccursAt(text, word, 0);
    } else if text != "" {
      MentionsExactly(text[1..], word);
      if i: nat :| OccursAt(text[1..], word, i) {
        assert text[i + 1..i + 1 + |word|] == text[1..][i..i + |word|];
        assert OccursAt(text, word, i + 1);
      }
      if i: nat :| OccursAt(text, word, i) {
        assert i == 0 ==> word <= text;
        assert text[1..][i - 1..i - 1 + |word|] == text[i..i + |word|];
        assert OccursAt(text[1..], word, i - 1);
      }
    }
  }

  /** An answer that can be an installer: found, of a possible length, and not a text of some kind. */
  predicate Usable(head: Head, maxBytes: nat)
  {
    && head.status == 200 && head.expected <= maxBytes && head.expected != 0
    && !Mentions(head.contentType, "text/") && !Mentions(head.contentType, "json") && !Mentions(head.contentType, "html")
  }

  /** The answers that are refused: not found, empty, too long, or of a content type in which one of the three
      words occurs anywhere. */
  lemma RefusedExactlyWhen(head: Head, maxBytes: nat)
    ensures !Usable(head, maxBytes) <==>
              || head.status != 200 || head.expected == 0 || head.expected > maxBytes
              || exists i :: OccursAt(head.contentType, "text/", i) || OccursAt(head.contentType, "json", i) || OccursAt(head.contentType, "html", i)
  {
    MentionsExactly(head.contentType, "text/");
    MentionsExactly(head.contentType, "json");
    MentionsExactly(head.contentType, "html");
  }

  /** There is something to write and somewhere to write it; no head means that the upstream could not be
      asked. */
  predicate Opens(head: Option<Head>, disk: Disk, maxBytes: nat)
  {
    head.Some? && Usable(head.value, maxBytes) && disk.opens
  }

  /** A usable file: it arrived and was written in full, is not empty, not too large, and as long as
      announced. */
  predicate Complete(head: Option<Head>, disk: Disk, source: seq<Read>, maxBytes: nat)
  {
    var body := Body(source, 0);
    && Opens(head, disk, maxBytes) && disk.closes
    && body.Some? && 0 < |body.value| <= maxBytes && (head.value.expected < 0 || |body.value| == head.value.expected)
  }

  /** The first `n` chunks, joined. */
  function Joined(source: seq<Read>, n: nat): seq<byte>
    requires n <= |source| && forall i :: 0 <= i < n ==> source[i].Data?
  {
    if n == 0 then [] else Joined(source, n - 1) + source[n - 1].bytes
  }

  /** The body ends after its first `n` chunks, all of which could be written. */
  predicate EndsAfter(source: seq<Read>, n: nat)
  {
    n < |source| && source[n].Eof? && forall i :: 0 <= i < n ==> source[i].Data? && source[i].stored
  }

  lemma {:induction false} BodyFrom(source: seq<Read>, i: nat, n: nat)
    requires i <= n && EndsAfter(source, n)
    ensures Body(source, i).Some? && Joined(source, n) == Joined(source, i) + Body(source, i).value
    decreases n - i
  {
    if i < n {
      BodyFrom(source, i + 1, n);
      assert Joined(source, i + 1) == Joined(source, i) + source[i].bytes;
    } else {
      assert Joined(source, n) + [] == Joined(source, n);
    }
  }

  lemma {:induction false} BodyEnds(source: seq<Read>, i: nat) returns (n: nat)
    requires i <= |source| && Body(source, i).Some? && forall j :: 0 <= j < i ==> source[j].Data? && source[j].stored
    ensures EndsAfter(source, n)
    decreases |source| - i
  {
    if source[i].Eof? {
      n := i;
    } else {
      n := BodyEnds(source, i + 1);
    }
  }

  /** A file is complete if and only if the upstream could be asked and its answer is no refused one, the local
      file can be made and closed, and the body ends after chunks that were all written and together are
      not empty, not too large, and as long as announced. */
  lemma CompleteExactlyWhen(head: Option<Head>, disk: Disk, source: seq<Read>, maxBytes: nat)
    ensures Complete(head, disk, source, maxBytes) <==>
              && head.Some? && Usable(head.value, maxBytes) && disk.opens && disk.closes
              && exists n: nat :: EndsAfter(source, n) && 0 < |Joined(source, n)| <= maxBytes
                                  && (0 <= head.value.expected ==> |Joined(source, n)| == head.value.expected)
    ensures forall n: nat :: EndsAfter(source, n) ==> Body(source, 0) == Some(Joined(source, n))
  {
    forall n: nat | EndsAfter(source, n) ensures Body(source, 0) == Some(Joined(source, n)) {
      BodyFrom(source, 0, n);
      assert [] + Body(source, 0).value == Body(source, 0).value;
    }
    if Body(source, 0).Some? {
      var n := BodyEnds(source, 0);
    }
  }

  class Transfer {
    const head: Option<Head>
    const disk: Disk
    const source: seq<Read>
    const maxBytes: nat
    var started: bool
    var pos: nat
    var content: seq<byte>
    var done: bool
    var failed: bool

    constructor (head: Option<Head>, disk: Disk, source: seq<Read>, maxBytes: nat)
      ensures Valid() && !started && !done && content == []
      ensures this.head == head && this.disk == disk && this.source == source && this.maxBytes == maxBytes
    {
      this.head, this.disk, this.source, this.maxBytes := head, disk, source, maxBytes;
      started, pos, content, done, failed := false, 0, [], false, false;
      new;
      assert Body(source, 0) == Prepend([], Body(source, 0)) by {
        if Body(source, 0).Some? { assert [] + Body(source, 0).value == Body(source, 0).value; }
      }
    }

    /** A finished fetch succeeded exactly if the file is usable, and then holds exactly that file. */
    predicate Valid()
      reads this
    {
      && pos <= |source| && |content| <= maxBytes && (failed ==> done) && (started ==> Opens(head, disk, maxBytes))
      && (if !done then Body(source, 0) == Prepend(content, Body(source, pos)) && (!started ==> pos == 0 && content == [])
          else if failed then !Complete(head, disk, source, maxBytes)
          else Complete(head, disk, source, maxBytes) && Body(source, 0) == Some(content))
    }

    /** Nothing already written changes, and nothing happens after the end. */
    twostate predicate Grew()
      reads this
    {
      && old(content) <= content
      && (old(done) ==> done && failed == old(failed) && content == old(content))
    }

    /** What fetchFile does up to its loop, or one turn of the loop with the checks after it. */
    method FetchStep()
      requires Valid() && !done
      modifies this`started, this`pos, this`content, this`done, this`failed
      ensures Valid() && Grew()
      ensures done || (if old(started) then started && pos == old(pos) + 1 else started && pos == old(pos))
    {
      if !started {
        if Opens(head, disk, maxBytes) {
          started := true;
        } else {
          done, failed := true, true;
        }
        return;
      }
      if pos == |source| {
        done, failed := true, true;
        return;
      }
      match source[pos]
      case Broken => done, failed := true, true;
      case Eof =>
        assert Body(source, pos) == Some([]) && content + [] == content;
        var expected := head.value.expected;
        done := true;
        failed := |content| == 0 || (expected >= 0 && |content| != expected) || !disk.closes;
      case Data(b, stored) =>
        if |content| + |b| > maxBytes || !stored {
          done, failed := true, true;
        } else {
          if Body(source, pos + 1).Some? {
            assert content + (b + Body(source, pos + 1).value) == (content + b) + Body(source, pos + 1).value;
          }
          content := content + b;
          pos := pos + 1;
        }
    }

    /** The whole fetch. */
    method Fetch()
      requires Valid() && !done
      modifies this`started, this`pos, this`content, this`done, this`failed
      ensures Valid() && done
      ensures !failed <==> Complete(head, disk, source, maxBytes)
      ensures !failed ==> Some(content) == Body(source, 0)
    {
      while !done
        invariant Valid()
        decreases !done, !started, |source| - pos
      {
        FetchStep();
      }
    }

    /** The fetch makes some progress while the reader does not look. */
    method Meanwhile()
      requires Valid()
      modifies this`started, this`pos, this`content, this`done, this`failed
      ensures Valid() && Grew()
    {
      var turns: nat := *;
      while turns > 0 && !done
        invariant Valid() && Grew()
      {
        FetchStep();
        turns := turns - 1;
      }
    }

    /** The streaming loop of serve. A reader whose stream ends normally has the complete, error-free file;
        every other reader has a prefix of it. `patience` bounds how often it waits before it leaves;
        `steady` means that the reader stays and the file can be read. */
    method Stream(patience: nat, steady: bool) returns (out: seq<byte>, outcome: Outcome)
      requires Valid()
      modifies this`started, this`pos, this`content, this`done, this`failed
      ensures Valid() && out <= content
      ensures outcome == Ended ==> Complete(head, disk, source, maxBytes) && Body(source, 0) == Some(out)
      ensures old(done) && !old(failed) && steady ==> outcome == Ended
      ensures old(done) && old(failed) ==> outcome == Aborted
    {
      out := [];
      var waits := patience;
      while true
        invariant Valid() && out <= content
        invariant old(done) ==> done && failed == old(failed)
        decreases maxBytes - |out|, waits
      {
        Meanwhile();
        var size, ended, broken := |content|, done, failed;
        if ended && broken {
          return out, Aborted;
        }
        if size > |out| {
          var offset := |out|;
          var amount :| 0 < amount <= size - offset;
          ghost var written := content;
          Meanwhile();
          assert |written| == size && |written| <= |content|;
          if !steady {
            if {
              case true =>
              // the reader is gone
              case true => return out, Left;
              // the file could not be read
              case true => return out, Aborted;
            }
          }
          out := out + content[offset..offset + amount];
        } else if ended {
          assert out == content;
          return out, Ended;
        } else if waits == 0 {
          return out, Left;
        } else {
          waits := waits - 1;
        }
      }
    }
  }
}
