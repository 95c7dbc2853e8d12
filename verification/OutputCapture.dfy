/**
 Output capture: a byte limit applied again after every chunk, after every step and at the end.
 All of it together is one truncation of everything decoded.
 */
module OutputCapture {
  import opened Paging
  import opened Utf8

  function Truncate(input: seq<Scalar>, maxBytes: nat): seq<Scalar> {
    var buffer := Encode(input);
    if |buffer| <= maxBytes then input else Decode(buffer[..maxBytes])
  }

  // ---------------------------------------------------------------- truncation, character by character

  function Bytes(s: seq<Scalar>): nat { if s == [] then 0 else Size(s[0]) + Bytes(s[1..]) }

  lemma {:induction false} EncodeLength(s: seq<Scalar>)
    ensures |Encode(s)| == Bytes(s)
  {
    if s != [] { EncodeLength(s[1..]); }
  }

  /** The characters that fit, and a replacement for one that fits in part. */
  function Cut(s: seq<Scalar>, m: nat): seq<Scalar> {
    if s == [] then []
    else if Size(s[0]) <= m then [s[0]] + Cut(s[1..], m - Size(s[0]))
    else if m == 0 then []
    else [REPLACEMENT]
  }

  lemma {:induction false} CutFits(s: seq<Scalar>, m: nat)
    requires Bytes(s) <= m
    ensures Cut(s, m) == s
  {
    if s != [] { CutFits(s[1..], m - Size(s[0])); }
  }

  lemma {:induction false} CutDecodes(s: seq<Scalar>, m: nat)
    requires Bytes(s) > m
    ensures |Encode(s)| > m && Decode(Encode(s)[..m]) == Cut(s, m)
  {
    hide EncodeOne, Decode;
    EncodeLength(s);
    var n := Size(s[0]);
    if n <= m {
      CutDecodes(s[1..], m - n);
      DecodeStep(s[0], Encode(s[1..])[..m - n]);
      assert Encode(s)[..m] == EncodeOne(s[0]) + Encode(s[1..])[..m - n];
    } else if m > 0 {
      DecodeOfCutCharacter(s[0], m);
      assert Encode(s)[..m] == EncodeOne(s[0])[..m];
    } else {
      DecodeNothing();
      assert Encode(s)[..m] == [];
    }
  }

  lemma DecodeNothing()
    ensures Decode([]) == []
  {
  }

  /** Truncating bytes and decoding what is left is cutting characters. */
  lemma TruncateIsCut(s: seq<Scalar>, m: nat)
    ensures Truncate(s, m) == Cut(s, m)
  {
    EncodeLength(s);
    if Bytes(s) <= m { CutFits(s, m); } else { CutDecodes(s, m); }
  }

  lemma {:induction false} CutAbsorbsLeft(a: seq<Scalar>, b: seq<Scalar>, m: nat)
    ensures Cut(Cut(a, m) + b, m) == Cut(a + b, m)
  {
    if a == [] {
      assert Cut(a, m) + b == b == a + b;
    } else if Size(a[0]) <= m {
      CutAbsorbsLeft(a[1..], b, m - Size(a[0]));
      var rest := Cut(a[1..], m - Size(a[0]));
      assert (Cut(a, m) + b)[1..] == rest + b;
      assert (a + b)[1..] == a[1..] + b;
    } else {
      CutInsideCharacter(a, b, m);
    }
  }

  lemma CutInsideCharacter(a: seq<Scalar>, b: seq<Scalar>, m: nat)
    requires a != [] && Size(a[0]) > m
    ensures Cut(Cut(a, m) + b, m) == Cut(a + b, m)
  {
    assert (a + b)[0] == a[0];
    if m > 0 {
      assert Cut(a, m) == [REPLACEMENT] && (Cut(a, m) + b)[1..] == b && Size(REPLACEMENT) == 3;
    }
  }

  lemma {:induction false} CutAgain(b: seq<Scalar>, m: nat, limit: nat)
    requires m <= limit
    ensures Cut(Cut(b, limit), m) == Cut(b, m)
  {
    if b != [] && Size(b[0]) <= m {
      CutAgain(b[1..], m - Size(b[0]), limit - Size(b[0]));
      assert Cut(b, limit)[1..] == Cut(b[1..], limit - Size(b[0]));
    }
  }

  lemma {:induction false} CutAbsorbsRight(a: seq<Scalar>, b: seq<Scalar>, m: nat, limit: nat)
    requires m <= limit
    ensures Cut(a + Cut(b, limit), m) == Cut(a + b, m)
  {
    if a == [] {
      CutAgain(b, m, limit);
      assert a + Cut(b, limit) == Cut(b, limit) && a + b == b;
    } else if Size(a[0]) <= m {
      CutAbsorbsRight(a[1..], b, m - Size(a[0]), limit);
      assert (a + Cut(b, limit))[1..] == a[1..] + Cut(b, limit);
      assert (a + b)[1..] == a[1..] + b;
    }
  }

  // ---------------------------------------------------------------- laws of truncation

  /** Truncating what came before, or what comes next, does not change the truncation of the whole. */
  lemma TruncateAbsorbs(a: seq<Scalar>, b: seq<Scalar>, m: nat)
    ensures Truncate(Truncate(a, m) + b, m) == Truncate(a + b, m)
    ensures Truncate(a + Truncate(b, m), m) == Truncate(a + b, m)
  {
    hide Truncate;
    TruncateIsCut(a, m);
    TruncateIsCut(b, m);
    TruncateIsCut(a + b, m);
    TruncateIsCut(Truncate(a, m) + b, m);
    TruncateIsCut(a + Truncate(b, m), m);
    CutAbsorbsLeft(a, b, m);
    CutAbsorbsRight(a, b, m, m);
  }

  lemma TruncateIdempotent(s: seq<Scalar>, m: nat)
    ensures Truncate(Truncate(s, m), m) == Truncate(s, m)
  {
    TruncateAbsorbs(s, [], m);
    assert Truncate(s, m) + [] == Truncate(s, m) && s + [] == s;
  }

  /** How many characters fit whole. */
  function Whole(s: seq<Scalar>, m: nat): (k: nat)
    ensures k <= |s|
  {
    if s == [] || Size(s[0]) > m then 0 else 1 + Whole(s[1..], m - Size(s[0]))
  }

  lemma {:induction false} CutShape(s: seq<Scalar>, m: nat)
    ensures var k := Whole(s, m);
      && Bytes(s[..k]) <= m && (k < |s| ==> m < Bytes(s[..k + 1]))
      && Cut(s, m) == s[..k] + if k < |s| && Bytes(s[..k]) < m then [REPLACEMENT] else []
  {
    if s != [] && Size(s[0]) <= m {
      var k := Whole(s[1..], m - Size(s[0]));
      CutShape(s[1..], m - Size(s[0]));
      assert s[..k + 1] == [s[0]] + s[1..][..k];
      if k + 1 < |s| { assert s[..k + 2] == [s[0]] + s[1..][..k + 1]; }
    }
  }

  lemma {:induction false} BytesConcat(a: seq<Scalar>, b: seq<Scalar>)
    ensures Bytes(a + b) == Bytes(a) + Bytes(b)
  {
    if a == [] {
      assert a + b == b;
    } else {
      BytesConcat(a[1..], b);
      assert (a + b)[1..] == a[1..] + b;
    }
  }

  /**
   What truncation keeps: the longest prefix that fits, and one replacement character when the limit
   falls inside the next character. The result is over the limit exactly when it falls one or two
   bytes into that character, and then by at most two bytes.
   */
  lemma TruncateShape(s: seq<Scalar>, m: nat)
    ensures var k, t := Whole(s, m), Truncate(s, m);
      && Bytes(s[..k]) <= m && (k < |s| ==> m < Bytes(s[..k + 1]))
      && t == s[..k] + (if k < |s| && Bytes(s[..k]) < m then [REPLACEMENT] else [])
      && |Encode(t)| <= m + 2
      && (|Encode(t)| > m <==> k < |s| && m - 2 <= Bytes(s[..k]) < m)
  {
    TruncateIsCut(s, m);
    CutShape(s, m);
    var k := Whole(s, m);
    EncodeLength(Truncate(s, m));
    BytesConcat(s[..k], [REPLACEMENT]);
    assert s[..k] + [] == s[..k];
  }

  /** One euro sign under a limit of one byte becomes a three-byte replacement: the bound of two is reached. */
  lemma LimitCanBeExceededByTwo()
    ensures |Encode(Truncate([0x20AC], 1))| == 1 + 2
  {
    TruncateIsCut([0x20AC], 1);
    EncodeLength([REPLACEMENT]);
    assert Cut([0x20AC], 1) == [REPLACEMENT];
  }

  // ---------------------------------------------------------------- the capture loops

  datatype Chunk = OnStdout(bytes: seq<Byte>) | OnStderr(bytes: seq<Byte>)

  /** Everything a process wrote to one stream, each chunk decoded on its own. */
  function Written(chunks: seq<Chunk>, stdout: bool): seq<Scalar> {
    if chunks == [] then []
    else
      var last := chunks[|chunks| - 1];
      Written(chunks[..|chunks| - 1], stdout) + if last.OnStdout? == stdout then Decode(last.bytes) else []
  }

  /** What each kind of chunk adds, and to which stream. */
  lemma ChunkGoesToItsStream(chunks: seq<Chunk>, bytes: seq<Byte>)
    ensures Written([], true) == [] && Written([], false) == []
    ensures Written(chunks + [OnStdout(bytes)], true) == Written(chunks, true) + Decode(bytes)
    ensures Written(chunks + [OnStdout(bytes)], false) == Written(chunks, false)
    ensures Written(chunks + [OnStderr(bytes)], true) == Written(chunks, true)
    ensures Written(chunks + [OnStderr(bytes)], false) == Written(chunks, false) + Decode(bytes)
  {
    hide Decode;
    var out, err := chunks + [OnStdout(bytes)], chunks + [OnStderr(bytes)];
    assert out[..|out| - 1] == chunks && err[..|err| - 1] == chunks;
  }

  /** The bytes of the stdout chunks, in order. */
  function StdoutOf(chunks: seq<Chunk>): seq<seq<Byte>> {
    if chunks == [] then []
    else
      match chunks[|chunks| - 1]
      case OnStdout(bytes) => StdoutOf(chunks[..|chunks| - 1]) + [bytes]
      case OnStderr(_) => StdoutOf(chunks[..|chunks| - 1])
  }

  function StderrOf(chunks: seq<Chunk>): seq<seq<Byte>> {
    if chunks == [] then []
    else
      match chunks[|chunks| - 1]
      case OnStdout(_) => StderrOf(chunks[..|chunks| - 1])
      case OnStderr(bytes) => StderrOf(chunks[..|chunks| - 1]) + [bytes]
  }

  /** What is captured from a stream is the text of exactly its own chunks, each decoded on its own. */
  lemma {:induction false} WrittenIsItsOwnChunks(chunks: seq<Chunk>)
    ensures Written(chunks, true) == Apart(StdoutOf(chunks))
    ensures Written(chunks, false) == Apart(StderrOf(chunks))
  {
    hide Decode;
    if chunks != [] {
      var earlier, last := chunks[..|chunks| - 1], chunks[|chunks| - 1];
      WrittenIsItsOwnChunks(earlier);
      ApartLast(StdoutOf(earlier), last.bytes);
      ApartLast(StderrOf(earlier), last.bytes);
    }
  }

  lemma ApartLast(chunks: seq<seq<Byte>>, last: seq<Byte>)
    ensures Apart(chunks + [last]) == Apart(chunks) + Decode(last)
  {
    hide Decode;
    assert (chunks + [last])[..|chunks|] == chunks;
  }

  lemma {:induction false} WrittenConcat(a: seq<Chunk>, b: seq<Chunk>, stdout: bool)
    ensures Written(a + b, stdout) == Written(a, stdout) + Written(b, stdout)
  {
    hide Decode;
    if b == [] {
      assert a + b == a;
    } else {
      var front, last := b[..|b| - 1], b[|b| - 1];
      WrittenConcat(a, front, stdout);
      assert (a + b)[..|a + b| - 1] == a + front && (a + b)[|a + b| - 1] == last;
    }
  }

  /** The data handlers: append, then truncate, for every chunk as it arrives. */
  method Capture(chunks: seq<Chunk>, maxBytes: nat) returns (stdout: seq<Scalar>, stderr: seq<Scalar>)
    ensures stdout == Truncate(Written(chunks, true), maxBytes)
    ensures stderr == Truncate(Written(chunks, false), maxBytes)
    ensures stdout == Truncate(Apart(StdoutOf(chunks)), maxBytes) && stderr == Truncate(Apart(StderrOf(chunks)), maxBytes)
  {
    hide Truncate, Decode;
    WrittenIsItsOwnChunks(chunks);
    stdout, stderr := [], [];
    TruncateNothing(maxBytes);
    for i := 0 to |chunks|
      invariant stdout == Truncate(Written(chunks[..i], true), maxBytes)
      invariant stderr == Truncate(Written(chunks[..i], false), maxBytes)
    {
      assert chunks[..i + 1][..i] == chunks[..i];
      var text := Decode(chunks[i].bytes);
      if chunks[i].OnStdout? {
        TruncateAbsorbs(Written(chunks[..i], true), text, maxBytes);
        stdout := Truncate(stdout + text, maxBytes);
      } else {
        TruncateAbsorbs(Written(chunks[..i], false), text, maxBytes);
        stderr := Truncate(stderr + text, maxBytes);
      }
      assert forall s: seq<Scalar> :: s + [] == s;
    }
    assert chunks[..|chunks|] == chunks;
  }

  lemma TruncateNothing(m: nat)
    ensures Truncate([], m) == []
  {
  }

  // ---------------------------------------------------------------- decoding chunk by chunk

  function Apart(chunks: seq<seq<Byte>>): seq<Scalar> {
    if chunks == [] then [] else Apart(chunks[..|chunks| - 1]) + Decode(chunks[|chunks| - 1])
  }

  /** Every chunk begins between two units of what has been written up to its end. */
  predicate SplitsBetween(chunks: seq<seq<Byte>>) {
    chunks == [] ||
    var earlier := chunks[..|chunks| - 1];
    SplitsBetween(earlier) && Between(Flat(chunks), |Flat(earlier)|)
  }

  /**
   Decoding each chunk on its own gives the text of the whole output exactly when no chunk begins
   inside a character; otherwise it always has characters the output does not.
   */
  lemma {:induction false} ChunksDecodeApart(chunks: seq<seq<Byte>>)
    ensures Apart(chunks) == Decode(Flat(chunks)) <==> SplitsBetween(chunks)
    ensures !SplitsBetween(chunks) ==> |Apart(chunks)| > |Decode(Flat(chunks))|
  {
    hide Decode, Between;
    DecodeNothing();
    if chunks != [] {
      var earlier, last := chunks[..|chunks| - 1], chunks[|chunks| - 1];
      ChunksDecodeApart(earlier);
      DecodingChunksApart(Flat(earlier), last);
    }
  }
}
