/** Reading a body sent in chunks (src/collector.rs:832-855; section 7.1 of RFC 9112). Sizes count bytes,
    text is characters, and a size that ends inside a character ends the reading. */
module Chunked {
  import opened Wrappers
  import opened Text

  const MAX_SIZE: nat := 0xFFFF_FFFF_FFFF_FFFF

  // ---------------------------------------------------------------- bytes and characters

  /** How many bytes a character takes in UTF-8. */
  function Width(c: char): (w: nat)
    ensures 1 <= w <= 4
  {
    if c as int < 0x80 then 1 else if c as int < 0x800 then 2 else if c as int < 0x10000 then 3 else 4
  }

  function Bytes(s: string): nat { if s == [] then 0 else Width(s[0]) + Bytes(s[1..]) }

  /** How many characters the first `n` bytes are, unless they end inside a character or beyond the end. */
  function CharsIn(s: string, n: nat): (k: Option<nat>)
    ensures k.Some? ==> k.value <= |s| && Bytes(s[..k.value]) == n
  {
    if n == 0 then Some(0)
    else if s == [] || Width(s[0]) > n then None
    else
      var rest := CharsIn(s[1..], n - Width(s[0]));
      if rest.None? then None
      else
        assert s[..rest.value + 1] == [s[0]] + s[1..][..rest.value];
        Some(rest.value + 1)
  }

  lemma {:induction false} BytesConcat(a: string, b: string)
    ensures Bytes(a + b) == Bytes(a) + Bytes(b)
  {
    if a == [] {
      assert a + b == b;
    } else {
      BytesConcat(a[1..], b);
      assert (a + b)[1..] == a[1..] + b;
    }
  }

  /** A prefix is found by its size, whatever follows. */
  lemma {:induction false} CharsOfPrefix(a: string, b: string)
    ensures CharsIn(a + b, Bytes(a)) == Some(|a|)
  {
    if a != [] {
      CharsOfPrefix(a[1..], b);
      assert (a + b)[1..] == a[1..] + b;
    }
  }

  // ---------------------------------------------------------------- the size line

  /** The position of the first CRLF. */
  function LineEnd(s: string): (i: Option<nat>)
    ensures i.Some? ==> i.value + 2 <= |s| && s[i.value] == '\r' && s[i.value + 1] == '\n'
  {
    if |s| < 2 then None
    else if s[0] == '\r' && s[1] == '\n' then Some(0)
    else
      var later := LineEnd(s[1..]);
      if later.None? then None else Some(later.value + 1)
  }

  predicate NoLineEnd(s: string) { forall i :: 0 <= i < |s| - 1 ==> !(s[i] == '\r' && s[i + 1] == '\n') }

  lemma {:induction false} LineEndAfter(line: string, rest: string)
    requires NoLineEnd(line)
    ensures LineEnd(line + "\r\n" + rest) == Some(|line|)
  {
    var s := line + "\r\n" + rest;
    if line != [] {
      assert s[1..] == line[1..] + "\r\n" + rest;
      forall i | 0 <= i < |line[1..]| - 1 ensures !(line[1..][i] == '\r' && line[1..][i + 1] == '\n') {
        assert line[i + 1] == line[1..][i] && line[i + 2] == line[1..][i + 1];
      }
      LineEndAfter(line[1..], rest);
      assert !(s[0] == '\r' && s[1] == '\n');
    }
  }

  /** Everything before the first semicolon: `split(';').next()`. */
  function BeforeSemicolon(s: string): string {
    if s == [] || s[0] == ';' then [] else [s[0]] + BeforeSemicolon(s[1..])
  }

  function TrimStart(s: string): string {
    if s != [] && IsWhitespace(s[0]) then TrimStart(s[1..]) else s
  }

  function TrimEnd(s: string): string {
    if s != [] && IsWhitespace(s[|s| - 1]) then TrimEnd(s[..|s| - 1]) else s
  }

  function Trim(s: string): string { TrimEnd(TrimStart(s)) }

  function HexDigit(c: char): Option<nat> {
    if '0' <= c <= '9' then Some(c as int - '0' as int)
    else if 'a' <= c <= 'f' then Some(c as int - 'a' as int + 10)
    else if 'A' <= c <= 'F' then Some(c as int - 'A' as int + 10)
    else None
  }

  predicate IsHex(s: string) { forall i :: 0 <= i < |s| ==> HexDigit(s[i]).Some? }

  function HexValue(s: string): nat
    requires IsHex(s)
  {
    if s == [] then 0 else 16 * HexValue(s[..|s| - 1]) + HexDigit(s[|s| - 1]).value
  }

  /** `usize::from_str_radix(_, 16)`: a sign may stand first, and what does not fit is refused. */
  function ParseSize(s: string): Option<nat> {
    var digits := if s != [] && s[0] == '+' then s[1..] else s;
    if digits == [] || !IsHex(digits) || HexValue(digits) > MAX_SIZE then None else Some(HexValue(digits))
  }

  function SizeOf(line: string): Option<nat> { ParseSize(Trim(BeforeSemicolon(line))) }

  // ---------------------------------------------------------------- decoding

  /** The next chunk and what is left after it and its two bytes of line end; nothing when reading stops. */
  function NextChunk(rest: string): (r: Option<(string, string)>)
    ensures r.Some? ==> |r.value.1| < |rest|
  {
    var lineEnd := LineEnd(rest);
    if lineEnd.None? then None
    else
      var size := SizeOf(rest[..lineEnd.value]);
      if size.None? || size.value == 0 then None
      else
        var data := rest[lineEnd.value + 2..];
        var chunk := CharsIn(data, size.value);
        if chunk.None? then None
        else
          var after := CharsIn(data, size.value + 2);
          Some((data[..chunk.value], if after.None? then [] else data[after.value..]))
  }

  function Decode(body: string): string
    decreases |body|
  {
    var next := NextChunk(body);
    if next.None? then [] else next.value.0 + Decode(next.value.1)
  }

  /** The loop. What is left gets strictly shorter, so it ends on every input. */
  method DecodeChunked(body: string) returns (out: string)
    ensures out == Decode(body)
  {
    out := [];
    var rest := body;
    var going := true;
    while going
      invariant going ==> out + Decode(rest) == Decode(body)
      invariant !going ==> out == Decode(body)
      decreases if going then |rest| + 1 else 0
    {
      var next := NextChunk(rest);
      if next.None? {
        assert out + [] == out;
        going := false;
      } else {
        assert out + Decode(rest) == (out + next.value.0) + Decode(next.value.1);
        out := out + next.value.0;
        rest := next.value.1;
      }
    }
  }

  // ---------------------------------------------------------------- what a sender may write

  predicate AllWhitespace(s: string) { forall i :: 0 <= i < |s| ==> IsWhitespace(s[i]) }

  /** A size line: the size in hexadecimal, any case, any leading zeros, with blanks around it and any
      extensions after it. */
  datatype SizeLine = SizeLine(before: string, digits: string, after: string, extensions: string) {
    function Text(): string { before + digits + after + extensions }

    predicate Says(size: nat) {
      && AllWhitespace(before) && AllWhitespace(after)
      && digits != [] && IsHex(digits) && HexValue(digits) == size <= MAX_SIZE
      && (extensions == [] || extensions[0] == ';')
      && NoLineEnd(Text())
    }
  }

  datatype Chunk = Chunk(line: SizeLine, data: string) {
    predicate Valid() { data != [] && line.Says(Bytes(data)) }

    function Encoded(): string { line.Text() + "\r\n" + data + "\r\n" }
  }

  function Encode(chunks: seq<Chunk>): string {
    if chunks == [] then [] else chunks[0].Encoded() + Encode(chunks[1..])
  }

  function Contents(chunks: seq<Chunk>): string {
    if chunks == [] then [] else chunks[0].data + Contents(chunks[1..])
  }

  lemma {:induction false} SemicolonSplits(s: string, extensions: string)
    requires (forall i :: 0 <= i < |s| ==> s[i] != ';') && (extensions == [] || extensions[0] == ';')
    ensures BeforeSemicolon(s + extensions) == s
  {
    if s == [] {
      assert s + extensions == extensions;
    } else {
      assert (s + extensions)[1..] == s[1..] + extensions;
      SemicolonSplits(s[1..], extensions);
    }
  }

  lemma {:induction false} TrimStartSkips(blanks: string, s: string)
    requires AllWhitespace(blanks) && (s == [] || !IsWhitespace(s[0]))
    ensures TrimStart(blanks + s) == s
  {
    if blanks == [] {
      assert blanks + s == s;
    } else {
      assert (blanks + s)[1..] == blanks[1..] + s;
      TrimStartSkips(blanks[1..], s);
    }
  }

  lemma {:induction false} TrimEndSkips(s: string, blanks: string)
    requires AllWhitespace(blanks) && (s == [] || !IsWhitespace(s[|s| - 1]))
    ensures TrimEnd(s + blanks) == s
  {
    if blanks == [] {
      assert s + blanks == s;
    } else {
      var init := blanks[..|blanks| - 1];
      assert (s + blanks)[..|s + blanks| - 1] == s + init;
      TrimEndSkips(s, init);
    }
  }

  lemma HexIsPlain(c: char)
    requires HexDigit(c).Some?
    ensures !IsWhitespace(c) && c != ';' && c != '+'
  {
  }

  /** The decoder reads from the line exactly the size the sender meant. */
  lemma SizeIsRead(line: SizeLine, size: nat)
    requires line.Says(size)
    ensures SizeOf(line.Text()) == Some(size)
  {
    var digits := line.digits;
    forall i | 0 <= i < |digits| ensures !IsWhitespace(digits[i]) && digits[i] != ';' && digits[i] != '+' { HexIsPlain(digits[i]); }
    var head := line.before + digits + line.after;
    forall i | 0 <= i < |head| ensures head[i] != ';' {
      if i < |line.before| { assert IsWhitespace(line.before[i]); }
      else if i >= |line.before| + |digits| { assert IsWhitespace(line.after[i - |line.before| - |digits|]); }
    }
    SemicolonSplits(head, line.extensions);
    assert head == line.before + (digits + line.after);
    TrimStartSkips(line.before, digits + line.after);
    TrimEndSkips(digits, line.after);
  }

  lemma NextAfterLine(text: string, size: nat, data: string, k: nat, m: nat)
    requires NoLineEnd(text) && SizeOf(text) == Some(size) && size > 0
    requires CharsIn(data, size) == Some(k) && CharsIn(data, size + 2) == Some(m)
    ensures NextChunk(text + "\r\n" + data) == Some((data[..k], data[m..]))
  {
    var body := text + "\r\n" + data;
    LineEndAfter(text, data);
    assert body[..|text|] == text && body[|text| + 2..] == data;
  }

  lemma NextOfText(text: string, chunk: string, tail: string)
    requires NoLineEnd(text) && SizeOf(text) == Some(Bytes(chunk)) && chunk != []
    ensures NextChunk(text + "\r\n" + (chunk + "\r\n" + tail)) == Some((chunk, tail))
  {
    var data := chunk + "\r\n" + tail;
    BytesPositive(chunk);
    DataOfChunk(chunk, tail);
    NextAfterLine(text, Bytes(chunk), data, |chunk|, |chunk| + 2);
    assert data[..|chunk|] == chunk && data[|chunk| + 2..] == tail;
  }

  lemma NextOfChunk(c: Chunk, tail: string)
    requires c.Valid()
    ensures NextChunk(c.Encoded() + tail) == Some((c.data, tail))
  {
    SizeIsRead(c.line, Bytes(c.data));
    NextOfText(c.line.Text(), c.data, tail);
    Regroup(c.line.Text(), "\r\n", c.data, tail);
  }

  lemma Regroup(text: string, end: string, chunk: string, tail: string)
    ensures text + end + chunk + end + tail == text + end + (chunk + end + tail)
  {
  }

  lemma DataOfChunk(chunk: string, tail: string)
    ensures CharsIn(chunk + "\r\n" + tail, Bytes(chunk)) == Some(|chunk|)
    ensures CharsIn(chunk + "\r\n" + tail, Bytes(chunk) + 2) == Some(|chunk| + 2)
  {
    assert chunk + "\r\n" + tail == chunk + ("\r\n" + tail);
    CharsOfPrefix(chunk, "\r\n" + tail);
    BytesConcat(chunk, "\r\n");
    CrlfBytes();
    CharsOfPrefix(chunk + "\r\n", tail);
  }

  lemma BytesPositive(s: string)
    requires s != []
    ensures Bytes(s) > 0
  {
  }

  lemma CrlfBytes()
    ensures Bytes("\r\n") == 2
  {
    assert "\r\n"[1..] == "\n" && "\n"[1..] == "";
  }

  /** Decoding undoes encoding, however the sender wrote the sizes and whatever comes after the chunks. */
  lemma {:induction false} RoundTrip(chunks: seq<Chunk>, tail: string)
    requires forall k :: 0 <= k < |chunks| ==> chunks[k].Valid()
    ensures Decode(Encode(chunks) + tail) == Contents(chunks) + Decode(tail)
    decreases |chunks|
  {
    if chunks == [] {
      assert Encode(chunks) + tail == tail;
    } else {
      var rest := Encode(chunks[1..]) + tail;
      NextOfChunk(chunks[0], rest);
      DecodeOn(chunks[0].Encoded() + rest, chunks[0].data, rest);
      RoundTrip(chunks[1..], tail);
      Reassociate(chunks[0].Encoded(), Encode(chunks[1..]), tail);
      Reassociate(chunks[0].data, Contents(chunks[1..]), Decode(tail));
    }
  }

  lemma Reassociate(a: string, b: string, c: string)
    ensures (a + b) + c == a + (b + c)
  {
  }

  lemma DecodeOn(body: string, chunk: string, rest: string)
    requires NextChunk(body) == Some((chunk, rest))
    ensures Decode(body) == chunk + Decode(rest)
  {
  }

  /** The last chunk ends the body: trailers and anything behind them are not read. */
  lemma LastChunkEnds(last: SizeLine, trailers: string)
    requires last.Says(0)
    ensures Decode(last.Text() + "\r\n" + trailers) == []
  {
    var body := last.Text() + "\r\n" + trailers;
    LineEndAfter(last.Text(), trailers);
    assert body[..|last.Text()|] == last.Text();
    SizeIsRead(last, 0);
  }

  /** A complete body gives back its chunks. */
  lemma WholeBody(chunks: seq<Chunk>, last: SizeLine, trailers: string)
    requires (forall k :: 0 <= k < |chunks| ==> chunks[k].Valid()) && last.Says(0)
    ensures Decode(Encode(chunks) + (last.Text() + "\r\n" + trailers)) == Contents(chunks)
  {
    RoundTrip(chunks, last.Text() + "\r\n" + trailers);
    LastChunkEnds(last, trailers);
  }

  /** After a size line, the chunk is read exactly when its size ends between two characters of what is
      there; a body cut short, or a chunk that ends inside a character, ends the reading at that line. */
  lemma ReadIffWholeCharacters(line: SizeLine, size: nat, data: string)
    requires line.Says(size) && size > 0
    ensures NextChunk(line.Text() + "\r\n" + data).Some?
            <==> exists k :: 0 <= k <= |data| && Bytes(data[..k]) == size
  {
    var text := line.Text();
    var body := text + "\r\n" + data;
    LineEndAfter(text, data);
    assert body[..|text|] == text && body[|text| + 2..] == data;
    SizeIsRead(line, size);
    if k :| 0 <= k <= |data| && Bytes(data[..k]) == size {
      assert data == data[..k] + data[k..];
      CharsOfPrefix(data[..k], data[k..]);
    }
  }
}
