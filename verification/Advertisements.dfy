/** The newline-delimited advertisement reader over an HTTP body that arrives in
    arbitrary chunks. */
module Advertisements {
  import opened Prelude
  import opened Splitting

  const NEWLINE: u8 := 0x0A

  datatype SignalMessageType = Genesis | Offer | Answer | Ice

  datatype SignalMessage = SignalMessage(replyTo: string, kind: SignalMessageType, payload: string)

  type Decoder = Bytes -> Option<SignalMessage>

  /** Whether the body ends, or breaks off with a transport error. */
  datatype Ending = Clean | Broken

  datatype ReadError = Undecodable | TransportFailed

  type Reading = Result<Option<SignalMessage>, ReadError>

  predicate IsAsciiWhitespace(b: u8) {
    b == 0x20 || b == 0x09 || b == 0x0A || b == 0x0C || b == 0x0D
  }

  predicate Blank(s: Bytes) { forall i :: 0 <= i < |s| ==> IsAsciiWhitespace(s[i]) }

  function NonBlank(pieces: seq<Bytes>): seq<Bytes> {
    if pieces == [] then []
    else (if Blank(pieces[0]) then [] else [pieces[0]]) + NonBlank(pieces[1..])
  }

  /** What a body holds for its reader: its non-blank lines, the unterminated last
      one included unless the body breaks off. */
  function Pending(body: Bytes, ending: Ending): seq<Bytes> {
    var pieces := Split(body, NEWLINE);
    NonBlank(if ending.Clean? then pieces else pieces[..|pieces| - 1])
  }

  function Decoded(decode: Decoder, line: Bytes): Reading {
    if decode(line).None? then Err(Undecodable) else Ok(decode(line))
  }

  function AtEnd(ending: Ending): Reading {
    if ending.Clean? then Ok(None) else Err(TransportFailed)
  }

  /** What the `n`th read of a body gives, counting from zero. */
  function ReadingAt(decode: Decoder, body: Bytes, ending: Ending, n: nat): Reading {
    var lines := Pending(body, ending);
    if n < |lines| then Decoded(decode, lines[n]) else AtEnd(ending)
  }

  function Position(s: Bytes, b: u8): (r: Option<nat>)
    ensures r.None? ==> b !in s
    ensures r.Some? ==> r.value < |s| && s[r.value] == b && b !in s[..r.value]
  {
    if s == [] then None
    else if s[0] == b then Some(0)
    else
      var rest := Position(s[1..], b);
      assert s == [s[0]] + s[1..];
      if rest.None? then None
      else
        assert s[..rest.value + 1] == [s[0]] + s[1..][..rest.value];
        Some(rest.value + 1)
  }

  /** Taking one terminated line off the front of a body. */
  lemma {:induction false} LineTaken(line: Bytes, rest: Bytes, ending: Ending)
    requires NEWLINE !in line
    ensures Pending(line + [NEWLINE] + rest, ending) == (if Blank(line) then [] else [line]) + Pending(rest, ending)
  {
    SplitAt(line, NEWLINE, rest);
    var pieces := Split(rest, NEWLINE);
    var all := [line] + pieces;
    assert all[1..] == pieces;
    assert all[..|all| - 1] == [line] + pieces[..|pieces| - 1];
    assert all[..|all| - 1][1..] == pieces[..|pieces| - 1];
  }

  /** The last piece of a body. */
  lemma {:induction false} LastPiece(tail: Bytes, ending: Ending)
    requires NEWLINE !in tail
    ensures Pending(tail, ending) == if ending.Clean? && !Blank(tail) then [tail] else []
  {
    SplitWhole(tail, NEWLINE);
    assert [tail][1..] == [] && [tail][..0] == [];
    assert NonBlank([tail]) == if Blank(tail) then [] else [tail];
  }

  class AdvertisementStream {
    var buffered: Bytes
    var chunks: seq<Bytes>
    const ending: Ending

    /** What has not been read yet, however it is cut. */
    function Rest(): Bytes
      reads this
    {
      buffered + Flatten(chunks)
    }

    constructor (chunks: seq<Bytes>, ending: Ending)
      ensures Rest() == Flatten(chunks) && this.ending == ending
    {
      this.buffered := [];
      this.chunks := chunks;
      this.ending := ending;
    }

    /** One read takes exactly the first pending line, decodable or not; at the end
        it keeps saying so. */
    method Next(decode: Decoder) returns (r: Reading)
      modifies this
      ensures
        var lines := old(Pending(Rest(), ending));
        if lines == [] then r == AtEnd(ending) && Pending(Rest(), ending) == []
        else r == Decoded(decode, lines[0]) && Pending(Rest(), ending) == lines[1..]
      ensures
        var lines := old(Pending(Rest(), ending));
        && (forall message :: r == Ok(Some(message)) <==> lines != [] && decode(lines[0]) == Some(message))
        && (r == Err(Undecodable) <==> lines != [] && decode(lines[0]) == None)
        && (r == Ok(None) <==> lines == [] && ending == Clean)
        && (r == Err(TransportFailed) <==> lines == [] && ending == Broken)
    {
      while true
        invariant Pending(Rest(), ending) == old(Pending(Rest(), ending))
        decreases |chunks|, |buffered|
      {
        var newline := Position(buffered, NEWLINE);
        if newline.Some? {
          var line := buffered[..newline.value];
          var after := buffered[newline.value + 1..];
          assert Rest() == line + [NEWLINE] + (after + Flatten(chunks));
          LineTaken(line, after + Flatten(chunks), ending);
          buffered := after;
          if Blank(line) {
            continue;
          }
          r := Decoded(decode, line);
          return;
        }
        if chunks != [] {
          assert buffered + Flatten(chunks) == buffered + chunks[0] + Flatten(chunks[1..]);
          buffered, chunks := buffered + chunks[0], chunks[1..];
        } else {
          assert Rest() == buffered;
          LastPiece(buffered, ending);
          LastPiece([], ending);
          if ending.Broken? {
            return Err(TransportFailed);
          } else if Blank(buffered) {
            return Ok(None);
          }
          var line := buffered;
          buffered := [];
          assert Rest() == [];
          return Decoded(decode, line);
        }
      }
    }

    /** Any number of reads give what the whole body determines, whatever the
        chunks it came in. */
    method ReadMany(decode: Decoder, n: nat) returns (rs: seq<Reading>)
      modifies this
      ensures |rs| == n
      ensures forall i :: 0 <= i < n ==> rs[i] == ReadingAt(decode, old(Rest()), ending, i)
    {
      hide Pending;
      ghost var lines := Pending(Rest(), ending);
      rs := [];
      while |rs| < n
        invariant |rs| <= n
        invariant forall i :: 0 <= i < |rs| ==> rs[i] == ReadingAt(decode, old(Rest()), ending, i)
        invariant Pending(Rest(), ending) == if |rs| <= |lines| then lines[|rs|..] else []
      {
        var r := Next(decode);
        rs := rs + [r];
      }
    }
  }

  lemma {:induction false} FlattenAppend(a: seq<Bytes>, b: seq<Bytes>)
    ensures Flatten(a + b) == Flatten(a) + Flatten(b)
    decreases |a|
  {
    if a == [] {
      assert a + b == b;
    } else {
      assert (a + b)[1..] == a[1..] + b;
      FlattenAppend(a[1..], b);
    }
  }

  /** White space is space, tab, line feed, form feed and carriage return. */
  lemma {:induction false} BlankExactly(s: Bytes)
    ensures Blank(s) <==> forall i :: 0 <= i < |s| ==> s[i] in [0x20, 0x09, 0x0A, 0x0C, 0x0D]
  {
  }

  lemma {:induction false} PiecesHaveNoSeparator(s: Bytes, sep: u8)
    ensures forall i :: 0 <= i < |Split(s, sep)| ==> sep !in Split(s, sep)[i]
    decreases |s|
  {
    if s == [] {
    } else {
      PiecesHaveNoSeparator(s[1..], sep);
    }
  }

  lemma {:induction false} NonBlankAre(pieces: seq<Bytes>, i: nat)
    requires i < |NonBlank(pieces)|
    ensures NonBlank(pieces)[i] in pieces && !Blank(NonBlank(pieces)[i])
    decreases |pieces|
  {
    hide Blank;
    if !Blank(pieces[0]) && i == 0 {
    } else {
      NonBlankAre(pieces[1..], if Blank(pieces[0]) then i else i - 1);
    }
  }

  /** What a reader is given: lines without a line feed, each with something other than
      white space in it. */
  lemma {:induction false} PendingAreLines(body: Bytes, ending: Ending, i: nat)
    requires i < |Pending(body, ending)|
    ensures
      var line := Pending(body, ending)[i];
      0x0A !in line && exists k :: 0 <= k < |line| && line[k] !in [0x20, 0x09, 0x0A, 0x0C, 0x0D]
  {
    hide Blank;
    var pieces := Split(body, NEWLINE);
    var used := if ending.Clean? then pieces else pieces[..|pieces| - 1];
    PiecesHaveNoSeparator(body, NEWLINE);
    NonBlankAre(used, i);
    BlankExactly(NonBlank(used)[i]);
  }

  /** Every way of cutting a body is possible, so the promise covers all of them:
      cutting one chunk in two, anywhere, changes no reading. */
  lemma {:induction false} CutAnywhere(decode: Decoder, before: seq<Bytes>, chunk: Bytes, after: seq<Bytes>,
                                       ending: Ending, at: nat, n: nat)
    requires at <= |chunk|
    ensures ReadingAt(decode, Flatten(before + [chunk] + after), ending, n)
         == ReadingAt(decode, Flatten(before + [chunk[..at], chunk[at..]] + after), ending, n)
  {
    var halves := [chunk[..at], chunk[at..]];
    FlattenOne(chunk);
    FlattenOne(chunk[at..]);
    assert halves[1..] == [chunk[at..]];
    assert Flatten(halves) == chunk[..at] + chunk[at..] == chunk;
    hide Flatten, ReadingAt;
    FlattenAppend(before + [chunk], after);
    FlattenAppend(before, [chunk]);
    FlattenAppend(before + halves, after);
    FlattenAppend(before, halves);
  }

  lemma {:induction false} FlattenOne(chunk: Bytes)
    ensures Flatten([chunk]) == chunk
  {
    assert [chunk][1..] == [];
  }
}
