/** The application's logger: long messages are cut into numbered pieces of
    at most 70 characters; a switch turns all logging off. The platform log is
    modelled as the sequence of entries written to it. */
module Logger {
  import opened Wrappers
  import opened JavaText
  import opened SeqFacts

  /** The longest message written in one piece. */
  const SPLIT_LINES: nat := 70

  datatype LogEntry =
    | Info(tag: string, message: string)    // Log.i
    | Error(tag: string, message: string)   // Log.e; the throwable is not modelled

  /** The tag of the i-th piece of a long message: the tag, then i in
      parentheses. */
  function ChunkTag(tag: string, i: int): string {
    tag + "(" + IntToString(i) + ")"
  }

  /** The pieces of `rest`, the first one numbered `k`: 70 characters at a
      time, the last piece holding what is left. */
  function Pieces(tag: string, rest: string, k: int): (r: seq<LogEntry>)
    decreases |rest|
  {
    if |rest| <= SPLIT_LINES then [Info(ChunkTag(tag, k), rest)]
    else [Info(ChunkTag(tag, k), rest[..SPLIT_LINES])] + Pieces(tag, rest[SPLIT_LINES..], k + 1)
  }

  /** The entries info(tag, value) writes when logging is on. */
  function InfoEntries(tag: string, value: string): (r: seq<LogEntry>)
    ensures |value| <= SPLIT_LINES ==> r == [Info(tag, value)]
  {
    if |value| <= SPLIT_LINES then [Info(tag, value)] else Pieces(tag, value, 1)
  }

  /** A non-empty text gives as many pieces as 70 goes into its length,
      rounded up. */
  lemma {:induction false} PiecesCount(tag: string, rest: string, k: int)
    requires rest != []
    ensures var r := Pieces(tag, rest, k);
            |r| > 0 && (|r| - 1) * SPLIT_LINES < |rest| <= |r| * SPLIT_LINES
    decreases |rest|
  {
    if |rest| > SPLIT_LINES {
      PiecesCount(tag, rest[SPLIT_LINES..], k + 1);
    }
  }

  /** Piece j of the pieces numbered from k is tagged tag(k + j). */
  lemma {:induction false} PieceTag(tag: string, rest: string, k: int, j: nat)
    requires j < |Pieces(tag, rest, k)|
    ensures Pieces(tag, rest, k)[j].Info? && Pieces(tag, rest, k)[j].tag == ChunkTag(tag, k + j)
    decreases |rest|
  {
    var r := Pieces(tag, rest, k);
    if j == 0 {
      assert k + j == k;
    } else {
      var tail := Pieces(tag, rest[SPLIT_LINES..], k + 1);
      assert r[j] == tail[j - 1];
      PieceTag(tag, rest[SPLIT_LINES..], k + 1, j - 1);
      assert k + 1 + (j - 1) == k + j;
    }
  }

  /** Every piece but the last holds exactly 70 characters; the last one of
      a non-empty text holds between 1 and 70. */
  lemma {:induction false} PiecesSizes(tag: string, rest: string, k: int)
    requires rest != []
    ensures var r := Pieces(tag, rest, k);
            (forall j :: 0 <= j < |r| - 1 ==> |r[j].message| == SPLIT_LINES)
            && |r| > 0 && 0 < |r[|r| - 1].message| <= SPLIT_LINES
    decreases |rest|
  {
    if |rest| > SPLIT_LINES {
      var head := Info(ChunkTag(tag, k), rest[..SPLIT_LINES]);
      var tail := Pieces(tag, rest[SPLIT_LINES..], k + 1);
      PiecesSizes(tag, rest[SPLIT_LINES..], k + 1);
      assert Pieces(tag, rest, k) == [head] + tail;
      forall j | 0 < j < |tail| + 1
        ensures ([head] + tail)[j] == tail[j - 1]
      {
      }
    }
  }

  /** A long message is written as pieces tagged tag(1), tag(2), ... in
      order: every piece but the last holds exactly 70 characters, the last
      between 1 and 70, and there are length / 70 pieces, rounded up. */
  lemma InfoEntriesShape(tag: string, value: string)
    requires |value| > SPLIT_LINES
    ensures var r := InfoEntries(tag, value);
            |r| >= 2 && (|r| - 1) * SPLIT_LINES < |value| <= |r| * SPLIT_LINES
            && (forall j :: 0 <= j < |r| ==> r[j].Info? && r[j].tag == ChunkTag(tag, j + 1))
            && (forall j :: 0 <= j < |r| - 1 ==> |r[j].message| == SPLIT_LINES)
            && 0 < |r[|r| - 1].message| <= SPLIT_LINES
  {
    PiecesCount(tag, value, 1);
    PiecesSizes(tag, value, 1);
    forall j | 0 <= j < |InfoEntries(tag, value)|
      ensures InfoEntries(tag, value)[j].Info? && InfoEntries(tag, value)[j].tag == ChunkTag(tag, j + 1)
    {
      PieceTag(tag, value, 1, j);
    }
  }

  /** The entries for the first `n` full pieces of `value`, as the loop of
      info writes them. */
  function FullChunks(tag: string, value: string, n: nat): (r: seq<LogEntry>)
    requires n * SPLIT_LINES <= |value|
    ensures |r| == n
  {
    if n == 0 then []
    else FullChunks(tag, value, n - 1)
         + [Info(ChunkTag(tag, n), value[(n - 1) * SPLIT_LINES..n * SPLIT_LINES])]
  }

  /** The first n full pieces followed by the pieces of what is left are the
      pieces of the whole text. */
  lemma {:induction false} FullChunksThenPieces(tag: string, value: string, n: nat)
    requires n * SPLIT_LINES < |value|
    ensures FullChunks(tag, value, n) + Pieces(tag, value[n * SPLIT_LINES..], n + 1) == Pieces(tag, value, 1)
  {
    if n == 0 {
      assert value[0..] == value;
    } else {
      FullChunksThenPieces(tag, value, n - 1);
      var rest := value[(n - 1) * SPLIT_LINES..];
      var piece := Info(ChunkTag(tag, n), value[(n - 1) * SPLIT_LINES..n * SPLIT_LINES]);
      assert rest[..SPLIT_LINES] == value[(n - 1) * SPLIT_LINES..n * SPLIT_LINES];
      assert rest[SPLIT_LINES..] == value[n * SPLIT_LINES..];
      var later := Pieces(tag, value[n * SPLIT_LINES..], n + 1);
      assert Pieces(tag, rest, n) == [piece] + later;
      assert FullChunks(tag, value, n) == FullChunks(tag, value, n - 1) + [piece];
      AppendAssociative(FullChunks(tag, value, n - 1), [piece], later);
    }
  }

  /** What the loop of info writes for a long message: the full pieces, then
      the remainder when the length is not a multiple of 70. */
  lemma InfoEntriesByLoop(tag: string, value: string)
    requires |value| > SPLIT_LINES
    ensures var n := |value| / SPLIT_LINES;
            InfoEntries(tag, value) == FullChunks(tag, value, n)
              + (if |value| % SPLIT_LINES != 0 then [Info(ChunkTag(tag, n + 1), value[n * SPLIT_LINES..])] else [])
  {
    var n := |value| / SPLIT_LINES;
    if |value| % SPLIT_LINES != 0 {
      FullChunksThenPieces(tag, value, n);
    } else {
      FullChunksThenPieces(tag, value, n - 1);
      assert value[(n - 1) * SPLIT_LINES..] == value[(n - 1) * SPLIT_LINES..n * SPLIT_LINES];
      assert FullChunks(tag, value, n) == FullChunks(tag, value, n - 1)
        + [Info(ChunkTag(tag, n), value[(n - 1) * SPLIT_LINES..n * SPLIT_LINES])];
    }
  }

  /** The messages of `entries`, end to end. */
  function Joined(entries: seq<LogEntry>): string {
    if entries == [] then "" else Joined(entries[..|entries| - 1]) + entries[|entries| - 1].message
  }

  lemma {:induction false} JoinedAppend(a: seq<LogEntry>, b: seq<LogEntry>)
    ensures Joined(a + b) == Joined(a) + Joined(b)
    decreases |b|
  {
    if b == [] {
      assert a + b == a;
    } else {
      assert (a + b)[..|a + b| - 1] == a + b[..|b| - 1];
      JoinedAppend(a, b[..|b| - 1]);
    }
  }

  lemma {:induction false} PiecesJoined(tag: string, rest: string, k: int)
    ensures Joined(Pieces(tag, rest, k)) == rest
    decreases |rest|
  {
    if |rest| <= SPLIT_LINES {
      assert Joined([Info(ChunkTag(tag, k), rest)]) == Joined([]) + rest;
    } else {
      var head := [Info(ChunkTag(tag, k), rest[..SPLIT_LINES])];
      PiecesJoined(tag, rest[SPLIT_LINES..], k + 1);
      JoinedAppend(head, Pieces(tag, rest[SPLIT_LINES..], k + 1));
      assert Joined(head) == Joined([]) + rest[..SPLIT_LINES];
      assert rest == rest[..SPLIT_LINES] + rest[SPLIT_LINES..];
    }
  }

  /** The pieces of a message, put back together in the order they were
      written, give the message back. */
  lemma InfoEntriesJoined(tag: string, value: string)
    ensures Joined(InfoEntries(tag, value)) == value
  {
    if |value| <= SPLIT_LINES {
      assert Joined([Info(tag, value)]) == Joined([]) + value;
    } else {
      PiecesJoined(tag, value, 1);
    }
  }

  /** The tag of the n-th element of a logged collection. */
  function ElementTag(tag: string, n: int): string {
    tag + " elem n°" + IntToString(n)
  }

  /** The entries for the first `n` elements of a logged collection, each
      element logged through info under its own numbered tag. */
  function ElementEntries(tag: string, elements: seq<string>, n: nat): (r: seq<LogEntry>)
    requires n <= |elements|
    ensures n == 0 ==> r == []
  {
    if n == 0 then []
    else ElementEntries(tag, elements, n - 1) + InfoEntries(ElementTag(tag, n), elements[n - 1])
  }

  /** The messages logged for a collection's elements, end to end, are the
      elements' texts end to end. */
  lemma {:induction false} ElementEntriesJoined(tag: string, elements: seq<string>, n: nat)
    requires n <= |elements|
    ensures Joined(ElementEntries(tag, elements, n)) == JoinedElements(elements, n)
  {
    if n > 0 {
      var before := ElementEntries(tag, elements, n - 1);
      var entries := InfoEntries(ElementTag(tag, n), elements[n - 1]);
      ElementEntriesJoined(tag, elements, n - 1);
      InfoEntriesJoined(ElementTag(tag, n), elements[n - 1]);
      JoinedAppend(before, entries);
    }
  }

  lemma ElementEntriesSnoc(tag: string, elements: seq<string>, n: nat)
    requires 0 < n <= |elements|
    ensures ElementEntries(tag, elements, n)
         == ElementEntries(tag, elements, n - 1) + InfoEntries(ElementTag(tag, n), elements[n - 1])
  {
  }

  /** The first `n` elements' texts, end to end. */
  function JoinedElements(elements: seq<string>, n: nat): string
    requires n <= |elements|
  {
    if n == 0 then "" else JoinedElements(elements, n - 1) + elements[n - 1]
  }

  /** The header line of a logged collection. */
  function CollectionHeader(className: string, size: int): string {
    "Collection : " + className + " " + IntToString(size) + " elems\n"
  }

  class AopdsLogger {
    /** The switch; the application leaves it on. */
    const activated: bool
    /** Everything written to the platform log so far. */
    ghost var log: seq<LogEntry>

    constructor (activated: bool)
      ensures this.activated == activated && log == []
    {
      this.activated := activated;
      log := [];
    }

    /** info(String, String): a message longer than 70 characters is written
        as numbered pieces of 70, then the remainder if any. */
    method InfoString(tag: string, value: string)
      modifies this`log
      ensures log == old(log) + (if activated then InfoEntries(tag, value) else [])
    {
      if activated {
        var splitLines := SPLIT_LINES;
        if |value| > splitLines {
          var nbLines := |value| / splitLines;
          var i := 1;
          while i <= nbLines
            invariant 1 <= i <= nbLines + 1
            invariant log == old(log) + FullChunks(tag, value, i - 1)
          {
            log := log + [Info(ChunkTag(tag, i), value[(i - 1) * splitLines..i * splitLines])];
            i := i + 1;
          }
          if |value| % splitLines != 0 {
            log := log + [Info(ChunkTag(tag, i), value[(i - 1) * splitLines..])];
          }
          InfoEntriesByLoop(tag, value);
        } else {
          log := log + [Info(tag, value)];
        }
      }
    }

    /** info(String, Object): the object's text, or "null", in one entry.
        `value` is the object's toString, None for a null object. */
    method InfoObject(tag: string, value: Option<string>)
      modifies this`log
      ensures !activated ==> log == old(log)
      ensures activated && value.None? ==> log == old(log) + [Info(tag, "null")]
      ensures activated && value.Some? ==> log == old(log) + [Info(tag, value.value)]
    {
      if activated {
        if value.None? {
          log := log + [Info(tag, "null")];
        } else {
          log := log + [Info(tag, value.value)];
        }
      }
    }

    /** info(String, Collection): "null" for no collection; otherwise a header
        naming the class and the size, then each element through info under
        a tag numbered from 1, in iteration order. */
    method InfoCollection(tag: string, value: Option<seq<string>>, className: string)
      modifies this`log
      ensures !activated ==> log == old(log)
      ensures activated && value.None? ==> log == old(log) + [Info(tag, "null")]
      ensures activated && value.Some? ==>
                log == old(log) + [Info(tag, CollectionHeader(className, |value.value|))]
                       + ElementEntries(tag, value.value, |value.value|)
    {
      if activated {
        if value.None? {
          log := log + [Info(tag, "null")];
        } else {
          var elements := value.value;
          log := log + [Info(tag, CollectionHeader(className, |elements|))];
          ghost var start := log;
          var i := 1;
          while i <= |elements|
            invariant 1 <= i <= |elements| + 1
            invariant log == start + ElementEntries(tag, elements, i - 1)
          {
            InfoElement(tag, elements, i, start);
            i := i + 1;
          }
        }
      }
    }

    /** One round of the collection loop: the i-th element through info. */
    method InfoElement(tag: string, elements: seq<string>, i: nat, ghost start: seq<LogEntry>)
      requires 0 < i <= |elements| && activated
      requires log == start + ElementEntries(tag, elements, i - 1)
      modifies this`log
      ensures log == start + ElementEntries(tag, elements, i)
    {
      ghost var before := ElementEntries(tag, elements, i - 1);
      ghost var entries := InfoEntries(ElementTag(tag, i), elements[i - 1]);
      InfoString(ElementTag(tag, i), elements[i - 1]);
      AppendAssociative(start, before, entries);
      ElementEntriesSnoc(tag, elements, i);
    }

    /** error: one entry, when logging is on. */
    method Error(tag: string, errorMsg: string)
      modifies this`log
      ensures log == old(log) + (if activated then [LogEntry.Error(tag, errorMsg)] else [])
    {
      if activated {
        log := log + [LogEntry.Error(tag, errorMsg)];
      }
    }
  }
}
