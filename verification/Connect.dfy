/** The CONNECT reader, its replay buffer and the tunnel copy loop (src/proxy_runtime/rama/connect.rs:28-312). */
module Connect {
  import opened Basics
  import opened Config
  import opened Text
  import opened Policy

  const MAX_HEADER_BYTES: nat := 16384
  const READ_BUFFER_BYTES: nat := 4096
  const COPY_BUFFER_BYTES: nat := 8192
  const TERMINATOR: string := "\r\n\r\n"

  datatype ConnectError = TooLarge | EarlyEof | Io | NotAscii | NotConnect | InvalidHeader | DuplicateHost

  /** A byte stream that delivers `pending` in pieces of any size and then ends, or fails. */
  class ByteStream {
    var pending: string
    const fails: bool

    constructor (content: string, fails: bool)
      ensures pending == content && this.fails == fails
    {
      pending, this.fails := content, fails;
    }

    /** At most `size` bytes; none at the end of the stream. `None` is an I/O error. */
    method Read(size: nat) returns (r: Option<string>)
      modifies this
      ensures r.Some? ==> |r.value| <= size && old(pending) == r.value + pending
      ensures r.Some? && size > 0 && r.value == [] ==> pending == [] && !fails
      ensures r.None? ==> pending == [] == old(pending) && fails
    {
      if pending == [] && fails { return None; }
      if size == 0 || pending == [] { return Some([]); }
      var n :| 1 <= n <= size && n <= |pending|;
      r := Some(pending[..n]);
      pending := pending[n..];
    }
  }

  // ----- the header block -----

  /** Where the first terminator ends. */
  function HeaderEnd(s: string): (r: Option<nat>)
    ensures r.Some? ==> 4 <= r.value <= |s|
  {
    if |s| < 4 then None
    else if s[..4] == TERMINATOR then Some(4)
    else
      var r := HeaderEnd(s[1..]);
      if r.None? then None else Some(r.value + 1)
  }

  lemma {:induction false} HeaderEndExtends(s: string, t: string)
    ensures HeaderEnd(s).Some? ==> HeaderEnd(s + t) == HeaderEnd(s)
    ensures HeaderEnd(s).None? && HeaderEnd(s + t).Some? ==> HeaderEnd(s + t).value > |s|
  {
    if |s| >= 4 {
      assert (s + t)[..4] == s[..4];
      assert (s + t)[1..] == s[1..] + t;
      HeaderEndExtends(s[1..], t);
    }
  }

  /** The terminator ends at `j`. */
  predicate EndsAt(s: string, j: nat)
    requires 4 <= j <= |s|
  {
    s[j - 4..j] == TERMINATOR
  }

  lemma {:induction false} HeaderEndIsFirst(s: string)
    ensures HeaderEnd(s).Some? ==> EndsAt(s, HeaderEnd(s).value)
    ensures forall j :: 4 <= j <= |s| && (HeaderEnd(s).None? || j < HeaderEnd(s).value) ==> !EndsAt(s, j)
  {
    if |s| >= 4 && s[..4] != TERMINATOR {
      HeaderEndIsFirst(s[1..]);
      forall j | 5 <= j <= |s| ensures EndsAt(s, j) == EndsAt(s[1..], j - 1) { assert s[j - 4..j] == s[1..][j - 5..j - 1]; }
      assert !EndsAt(s, 4);
    }
  }

  /** The whole-stream specification of the reading loop. */
  function HeaderBlock(s: string, fails: bool): (r: Result<nat, ConnectError>)
    ensures r.Ok? ==> 4 <= r.value <= |s| && r.value <= MAX_HEADER_BYTES
  {
    var end := HeaderEnd(s);
    if end.Some? && end.value <= MAX_HEADER_BYTES then Ok(end.value)
    else if |s| >= MAX_HEADER_BYTES then Err(TooLarge)
    else if fails then Err(Io) else Err(EarlyEof)
  }

  /**
   Reads until the terminator. Whatever sizes the reads have, the outcome is that of the whole stream, the bytes
   read beyond the terminator and the bytes still pending are what follows it, and the buffer stays bounded.
   */
  method ReadHeaderBlock(stream: ByteStream) returns (r: Result<(string, string), ConnectError>)
    modifies stream
    ensures var all, end := old(stream.pending), HeaderBlock(old(stream.pending), stream.fails);
            match r
            case Ok((header, ahead)) =>
              && end.Ok? && header == all[..end.value] && ahead + stream.pending == all[end.value..]
              && |header| + |ahead| < MAX_HEADER_BYTES + READ_BUFFER_BYTES
            case Err(error) => end == Err(error)
  {
    var bytes := "";
    assert HeaderEnd(bytes).None?;
    hide HeaderEnd;
    while true
      invariant |bytes| < MAX_HEADER_BYTES && HeaderEnd(bytes).None?
      invariant old(stream.pending) == bytes + stream.pending
      decreases |stream.pending|
    {
      var remaining := MAX_HEADER_BYTES + READ_BUFFER_BYTES - |bytes|;
      assert remaining > READ_BUFFER_BYTES;  // so connect.rs:187-192 is dead
      var read := stream.Read(Min(remaining, READ_BUFFER_BYTES));
      if read.None? { assert bytes + [] == bytes; return Err(Io); }
      if read.value == [] { assert bytes + [] == bytes; return Err(EarlyEof); }
      ghost var all := old(stream.pending);
      bytes := bytes + read.value;
      assert all == bytes + stream.pending;
      HeaderEndExtends(bytes, stream.pending);
      var end := HeaderEnd(bytes);
      if end.Some? {
        if end.value > MAX_HEADER_BYTES { return Err(TooLarge); }
        return Ok((bytes[..end.value], bytes[end.value..]));
      }
      if |bytes| >= MAX_HEADER_BYTES { return Err(TooLarge); }
    }
  }

  // ----- the request -----

  datatype Request = Request(authority: string, host: Option<string>, hasBody: bool)

  predicate IsAscii(s: string) { forall i :: 0 <= i < |s| ==> s[i] < 128 as char }

  predicate IsSpace(c: char) { c == ' ' || '\t' <= c <= '\r' }

  /** `split("\r\n")`. */
  function Lines(s: string): (r: seq<string>)
    ensures |r| > 0
  {
    if s == [] then [[]]
    else if |s| >= 2 && s[..2] == "\r\n" then [[]] + Lines(s[2..])
    else
      var rest := Lines(s[1..]);
      [[s[0]] + rest[0]] + rest[1..]
  }

  /** `split_ascii_whitespace`, which does not take the vertical tab for a space. */
  function Words(s: string): seq<string>
    decreases |s|
  {
    if s == [] then []
    else if IsSpace(s[0]) && s[0] != 11 as char then Words(s[1..])
    else
      var n := WordLength(s);
      [s[..n]] + Words(s[n..])
  }

  function WordLength(s: string): (n: nat)
    ensures n <= |s|
    ensures s != [] && !(IsSpace(s[0]) && s[0] != 11 as char) ==> n > 0
  {
    if s == [] || (IsSpace(s[0]) && s[0] != 11 as char) then 0 else 1 + WordLength(s[1..])
  }

  function Trim(s: string): string {
    if s == [] then [] else if IsSpace(s[0]) then Trim(s[1..])
    else if IsSpace(s[|s| - 1]) then Trim(s[..|s| - 1]) else s
  }

  /** The line announces a body, or asks to be told to send one. */
  predicate AnnouncesBody(name: string, value: string) {
    || EqualFold(name, "transfer-encoding")
    || (if EqualFold(name, "content-length") then Trim(value) != "0" else EqualFold(name, "expect"))
  }

  predicate IsHost(line: string) {
    SplitOnce(line, ':').Some? && EqualFold(SplitOnce(line, ':').value.0, "host")
  }

  function Headers(lines: seq<string>, host: Option<string>, hasBody: bool)
    : Result<(Option<string>, bool), ConnectError>
    decreases |lines|
  {
    if lines == [] then Ok((host, hasBody))
    else
      var split := SplitOnce(lines[0], ':');
      if split.None? then Err(InvalidHeader)
      else if IsHost(lines[0]) then
        if host.Some? then Err(DuplicateHost) else Headers(lines[1..], Some(Trim(split.value.1)), hasBody)
      else Headers(lines[1..], host, hasBody || AnnouncesBody(split.value.0, split.value.1))
  }

  function ParseRequest(header: string): Result<Request, ConnectError>
    requires |header| >= 4
  {
    if !IsAscii(header) then Err(NotAscii)
    else
      var lines := Lines(header[..|header| - 4]);
      var words := Words(lines[0]);
      if |words| != 3 || words[0] != "CONNECT" || words[2] != "HTTP/1.1" then Err(NotConnect)
      else
        var headers := Headers(lines[1..], None, false);
        if headers.Err? then Err(headers.error) else Ok(Request(words[1], headers.value.0, headers.value.1))
  }

  method ParseHeaders(lines: seq<string>) returns (r: Result<(Option<string>, bool), ConnectError>)
    ensures r == Headers(lines, None, false)
  {
    hide EqualFold; hide Trim; hide SplitOnce;
    var host: Option<string> := None;
    var hasBody := false;
    assert lines[0..] == lines;
    for k := 0 to |lines|
      invariant Headers(lines, None, false) == Headers(lines[k..], host, hasBody)
    {
      var split := SplitOnce(lines[k], ':');
      if split.None? { return Err(InvalidHeader); }
      var (name, value) := split.value;
      if EqualFold(name, "host") {
        if host.Some? { return Err(DuplicateHost); }
        host := Some(Trim(value));
      } else if EqualFold(name, "transfer-encoding") {
        hasBody := true;
      } else if EqualFold(name, "content-length") {
        if Trim(value) != "0" { hasBody := true; }
      } else if EqualFold(name, "expect") {
        hasBody := true;
      }
    }
    return Ok((host, hasBody));
  }

  ghost predicate HasHost(lines: seq<string>) { exists i :: 0 <= i < |lines| && IsHost(lines[i]) }

  ghost predicate HasBody(lines: seq<string>) { exists i :: 0 <= i < |lines| && Announces(lines[i]) }

  /** Every line has a colon, and no two are Host lines. */
  ghost predicate WellFormed(lines: seq<string>) {
    && (forall i :: 0 <= i < |lines| ==> ':' in lines[i])
    && (forall i, j :: 0 <= i < j < |lines| ==> !(IsHost(lines[i]) && IsHost(lines[j])))
  }

  lemma FirstLine(lines: seq<string>)
    requires lines != []
    ensures HasHost(lines) <==> IsHost(lines[0]) || HasHost(lines[1..])
    ensures HasBody(lines) <==> Announces(lines[0]) || HasBody(lines[1..])
    ensures WellFormed(lines) <==> ':' in lines[0] && WellFormed(lines[1..]) && !(IsHost(lines[0]) && HasHost(lines[1..]))
  {
    hide IsHost; hide Announces;
    var rest := lines[1..];
    assert forall i :: 0 <= i < |rest| ==> rest[i] == lines[i + 1];
    if HasHost(lines) && !IsHost(lines[0]) { var i :| 0 <= i < |lines| && IsHost(lines[i]); assert IsHost(rest[i - 1]); }
    if HasBody(lines) && !Announces(lines[0]) { var i :| 0 <= i < |lines| && Announces(lines[i]); assert Announces(rest[i - 1]); }
    if ':' in lines[0] && WellFormed(rest) && !(IsHost(lines[0]) && HasHost(rest)) {
      forall i, j | 0 <= i < j < |lines| ensures !(IsHost(lines[i]) && IsHost(lines[j])) {
        assert lines[j] == rest[j - 1];
        if i > 0 { assert lines[i] == rest[i - 1]; }
      }
      forall i | 0 <= i < |lines| ensures ':' in lines[i] { if i > 0 { assert lines[i] == rest[i - 1]; } }
    }
  }

  /** The block is accepted exactly when it is well formed; the flag says whether a line announces a body. */
  lemma {:induction false} HeadersMeaning(lines: seq<string>, host: Option<string>, hasBody: bool)
    ensures Headers(lines, host, hasBody).Ok? <==> WellFormed(lines) && !(host.Some? && HasHost(lines))
    ensures Headers(lines, host, hasBody).Ok? ==>
              var (h, b) := Headers(lines, host, hasBody).value;
              && (b <==> hasBody || HasBody(lines))
              && (if HasHost(lines) then h.Some? else h == host)
    decreases |lines|
  {
    if lines != [] {
      FirstLine(lines);
      hide EqualFold; hide Trim; hide HasHost; hide HasBody; hide WellFormed; hide IndexOf;
      if ':' in lines[0] {
        var split := SplitOnce(lines[0], ':').value;
        if IsHost(lines[0]) {
          HostIsNoBody(lines[0]);
          HeadersMeaning(lines[1..], Some(Trim(split.1)), hasBody);
        } else {
          HeadersMeaning(lines[1..], host, hasBody || AnnouncesBody(split.0, split.1));
        }
      }
    }
  }

  /** The returned host is the trimmed value of the Host line. */
  lemma {:induction false} HostMeaning(lines: seq<string>, host: Option<string>, hasBody: bool, k: nat)
    requires k < |lines| && IsHost(lines[k]) && Headers(lines, host, hasBody).Ok?
    ensures Headers(lines, host, hasBody).value.0 == Some(Trim(SplitOnce(lines[k], ':').value.1))
    decreases |lines|
  {
    var split, rest := SplitOnce(lines[0], ':').value, lines[1..];
    if k == 0 {
      HeadersMeaning(rest, Some(Trim(split.1)), hasBody);
    } else {
      HostMeaning(rest, if IsHost(lines[0]) then Some(Trim(split.1)) else host,
                  hasBody || (!IsHost(lines[0]) && AnnouncesBody(split.0, split.1)), k - 1);
    }
  }

  predicate Announces(line: string) {
    SplitOnce(line, ':').Some? && AnnouncesBody(SplitOnce(line, ':').value.0, SplitOnce(line, ':').value.1)
  }

  lemma HostIsNoBody(line: string)
    requires IsHost(line)
    ensures !Announces(line)
  {
    assert |Lower("host")| == 4 && |Lower("expect")| == 6;
  }

  /** read_connect_request: the header block, parsed, and the bytes read beyond it. */
  method ReadConnectRequest(stream: ByteStream) returns (r: Result<(Request, string), ConnectError>)
    modifies stream
    ensures var all, end := old(stream.pending), HeaderBlock(old(stream.pending), stream.fails);
            match r
            case Ok((request, ahead)) =>
              && end.Ok? && ParseRequest(all[..end.value]) == Ok(request)
              && ahead + stream.pending == all[end.value..]
            case Err(error) => if end.Ok? then ParseRequest(all[..end.value]) == Err(error) else end == Err(error)
  {
    hide HeaderBlock; hide Lines; hide Words;
    var block := ReadHeaderBlock(stream);
    if block.Err? { return Err(block.error); }
    var (header, ahead) := block.value;
    if !IsAscii(header) { return Err(NotAscii); }
    var lines := Lines(header[..|header| - 4]);
    var words := Words(lines[0]);
    if |words| != 3 || words[0] != "CONNECT" || words[2] != "HTTP/1.1" { return Err(NotConnect); }
    var headers := ParseHeaders(lines[1..]);
    if headers.Err? { return Err(headers.error); }
    return Ok((Request(words[1], headers.value.0, headers.value.1), ahead));
  }

  // ----- replay and copy -----

  /** A stream that first replays the bytes read ahead. */
  class ReplayStream {
    const inner: ByteStream
    const readAhead: string
    var offset: nat

    ghost predicate Valid()
      reads this
    {
      offset <= |readAhead|
    }

    /** What a reader will still get. */
    ghost function Remaining(): string
      requires Valid()
      reads this, inner
    {
      readAhead[offset..] + inner.pending
    }

    constructor (inner: ByteStream, readAhead: string)
      ensures Valid() && this.inner == inner && Remaining() == readAhead + inner.pending
    {
      this.inner, this.readAhead, offset := inner, readAhead, 0;
    }

    method Read(size: nat) returns (r: Option<string>)
      requires Valid()
      modifies this, inner
      ensures Valid()
      ensures r.Some? ==> |r.value| <= size && old(Remaining()) == r.value + Remaining()
      ensures r.Some? && size > 0 && r.value == [] ==> Remaining() == [] && !inner.fails
      ensures r.None? ==> Remaining() == [] == old(Remaining()) && inner.fails
    {
      if offset < |readAhead| {
        var remaining := readAhead[offset..];
        var read := Min(|remaining|, size);
        offset := offset + read;
        return Some(remaining[..read]);
      }
      r := inner.Read(size);
    }
  }

  /** The write half of a connection. A write can fail after any part of it. */
  class Sink {
    var written: string
    var closed: bool

    constructor ()
      ensures written == [] && !closed
    {
      written, closed := [], false;
    }

    method WriteAll(bytes: string, works: bool) returns (ok: bool)
      modifies this
      ensures ok == works && closed == old(closed)
      ensures ok ==> written == old(written) + bytes
      ensures old(written) <= written <= old(written) + bytes
    {
      if works {
        written := written + bytes;
        return true;
      }
      var n :| 0 <= n <= |bytes|;
      assert written + bytes[..n] <= written + bytes by { assert bytes == bytes[..n] + bytes[n..]; }
      written := written + bytes[..n];
      return false;
    }

    method Shutdown()
      modifies this
      ensures closed && written == old(written)
    {
      closed := true;
    }
  }

  function Saturated(n: nat): nat { Min(n, U64_MAX) }

  /**
   Copies until the end of the stream. The writer gets exactly the remaining bytes, in order; after a failure it has
   a prefix of them. `failAt` is the write that fails, if any.
   */
  method CopyUntilEof(reader: ReplayStream, writer: Sink, failAt: Option<nat>) returns (copied: Option<nat>)
    requires reader.Valid()
    modifies reader, reader.inner, writer
    ensures reader.Valid()
    ensures old(writer.written) <= writer.written <= old(writer.written) + old(reader.Remaining())
    ensures copied.Some? ==>
              && writer.written == old(writer.written) + old(reader.Remaining()) && writer.closed
              && copied.value == Saturated(|old(reader.Remaining())|)
    ensures failAt.None? ==> writer.written == old(writer.written) + old(reader.Remaining())
    ensures copied.None? && failAt.None? ==> reader.inner.fails
    ensures copied.None? ==> writer.closed == old(writer.closed)
  {
    ghost var before, all := writer.written, writer.written + reader.Remaining();
    var count, calls := 0, 0;
    while true
      invariant reader.Valid() && all == writer.written + reader.Remaining() && before <= writer.written
      invariant writer.closed == old(writer.closed) && count == Saturated(|writer.written| - |before|)
      decreases |reader.Remaining()|
    {
      var read := reader.Read(COPY_BUFFER_BYTES);
      if read.None? { assert writer.written + [] == writer.written; return None; }
      if read.value == [] {
        assert writer.written + [] == writer.written;
        writer.Shutdown();
        return Some(count);
      }
      Regroup(writer.written, read.value, reader.Remaining());
      var ok := writer.WriteAll(read.value, failAt != Some(calls));
      if !ok { return None; }
      count := Saturated(count + |read.value|);
      calls := calls + 1;
    }
  }

  lemma Regroup(a: string, b: string, c: string)
    ensures a + (b + c) == (a + b) + c && a + b <= (a + b) + c
  {
  }

  // ----- one client -----

  datatype Response = BadRequest | Forbidden | Tunnelled | Intercepted

  /** What becomes of a client, from its whole stream. */
  function ClientOutcome(f: Foreign, policy: SessionPolicy, all: string, fails: bool): Response {
    var end := HeaderBlock(all, fails);
    if end.Err? then BadRequest
    else
      var request := ParseRequest(all[..end.value]);
      if request.Err? then BadRequest
      else
        var q := request.value;
        var a := AuthorizeConnect(f, policy, q.authority, if q.host.Some? then [q.host.value] else []);
        if a.Err? then Forbidden
        else if q.hasBody then BadRequest
        else if a.value.0 == Tunnel then Tunnelled else Intercepted
  }

  /**
   handle_client with a reachable upstream. The response depends on the stream only as a whole. A tunnel delivers a
   prefix of the bytes after the header block, and exactly these bytes if the copy succeeds: none lost, repeated or
   reordered. `failAt` is the write that fails, or at which a failure of the other direction cancels this one.
   */
  method HandleClient(f: Foreign, policy: SessionPolicy, stream: ByteStream, upstream: Sink, failAt: Option<nat>)
    returns (response: Response, copied: Option<nat>)
    modifies stream, upstream
    ensures response == ClientOutcome(f, policy, old(stream.pending), stream.fails)
    ensures response != Tunnelled ==> copied.None? && upstream.written == old(upstream.written)
    ensures response == Tunnelled ==>
              var end := HeaderBlock(old(stream.pending), stream.fails);
              && end.Ok? && end.value <= |old(stream.pending)|
              && var rest := old(stream.pending)[end.value..];
                 && old(upstream.written) <= upstream.written <= old(upstream.written) + rest
                 && (copied.Some? ==> upstream.written == old(upstream.written) + rest && upstream.closed && copied.value == Saturated(|rest|))
                 && (failAt.None? ==> upstream.written == old(upstream.written) + rest && (copied.Some? || stream.fails))
  {
    hide HeaderBlock; hide ParseRequest; hide AuthorizeConnect;
    var parsed := ReadConnectRequest(stream);
    if parsed.Err? { return BadRequest, None; }
    var (request, ahead) := parsed.value;
    var client := new ReplayStream(stream, ahead);
    var a := AuthorizeConnect(f, policy, request.authority, if request.host.Some? then [request.host.value] else []);
    if a.Err? { return Forbidden, None; }
    if request.hasBody { return BadRequest, None; }
    if a.value.0 != Tunnel { return Intercepted, None; }
    copied := CopyUntilEof(client, upstream, failAt);
    return Tunnelled, copied;
  }
}
