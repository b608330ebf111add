/**
 Limiting the size of a provider's response: boundedProviderResponseBody of internal/ai/native.go,
 against the reading loop of internal/ai/compatible.go.
 */
module BoundedBody {
  type Byte = b: int | 0 <= b < 256

  datatype ReadError = NoError | EndOfFile | SourceFailed | TooLarge

  // How the source answers one read: with at most so many bytes, telling the end early, or failing.
  datatype Behaviour = Behaviour(most: nat, eager: bool, fails: bool)

  type Script = nat -> Behaviour

  datatype Source = Source(bytes: seq<Byte>, pos: nat, calls: nat, closes: nat)

  datatype Body = Body(source: Source, remaining: int, closed: bool)

  function Min(a: int, b: int): int { if a <= b then a else b }

  // ---------------------------------------------------------------- io.Reader

  // The number of bytes one read of at most `len` bytes yields, and its error.
  function SourceRead(script: Script, s: Source, len: nat): (r: (nat, ReadError))
    requires s.pos <= |s.bytes|
    ensures r.0 <= len && s.pos + r.0 <= |s.bytes| && r.1 != TooLarge
    ensures r.1 == EndOfFile ==> s.pos + r.0 == |s.bytes|
  {
    var behaviour := script(s.calls);
    var n: nat := Min(len, Min(behaviour.most, |s.bytes| - s.pos));
    (n, if behaviour.fails || s.closes > 0 then SourceFailed
        else if s.pos + n == |s.bytes| && (behaviour.eager || n == 0) then EndOfFile
        else NoError)
  }

  function Advanced(s: Source, n: nat): Source {
    s.(pos := s.pos + n, calls := s.calls + 1)
  }

  function Closed(b: Body): Body {
    if b.closed then b else b.(closed := true, source := b.source.(closes := b.source.closes + 1))
  }

  // Read: the bytes it delivers and its error.
  function ReadBody(script: Script, b: Body, len: nat): (Body, seq<Byte>, ReadError)
    requires b.source.pos <= |b.source.bytes|
  {
    if b.remaining < 0 then (b, [], TooLarge)
    else
      var s := b.source;
      var (n, error) := SourceRead(script, s, Min(len, b.remaining + 1));
      if n > b.remaining then
        (Closed(b.(source := Advanced(s, n), remaining := -1)), s.bytes[s.pos..s.pos + b.remaining], TooLarge)
      else (b.(source := Advanced(s, n), remaining := b.remaining - n), s.bytes[s.pos..s.pos + n], error)
  }

  // ---------------------------------------------------------------- any use of the body

  datatype Op = Read(len: nat) | Close

  // The body after some calls, all bytes they delivered, and the error of the last read.
  datatype Trace = Trace(body: Body, delivered: seq<Byte>, last: ReadError)

  function Start(bytes: seq<Byte>, limit: nat): Trace {
    Trace(Body(Source(bytes, 0, 0, 0), limit, false), [], NoError)
  }

  function Perform(script: Script, t: Trace, op: Op): Trace
    requires t.body.source.pos <= |t.body.source.bytes|
  {
    match op
    case Read(len) =>
      var (body, bytes, error) := ReadBody(script, t.body, len);
      Trace(body, t.delivered + bytes, error)
    case Close => t.(body := Closed(t.body))
  }

  ghost predicate Matches(t: Trace, bytes: seq<Byte>, limit: nat) {
    var s := t.body.source;
    && s.bytes == bytes && s.pos <= |bytes| && s.closes == (if t.body.closed then 1 else 0)
    && |t.delivered| <= |bytes| && t.delivered == bytes[..|t.delivered|]
    && (if t.body.remaining >= 0
        then s.pos == |t.delivered| && t.body.remaining == limit - |t.delivered| && t.last != TooLarge
        else |t.delivered| == limit < |bytes| && t.body.closed && t.last == TooLarge)
    && (t.last == EndOfFile ==> t.delivered == bytes)
  }

  lemma PerformKeeps(script: Script, t: Trace, op: Op, bytes: seq<Byte>, limit: nat)
    requires Matches(t, bytes, limit)
    ensures Matches(Perform(script, t, op), bytes, limit)
    ensures t.last == TooLarge && op.Read? ==>
              Perform(script, t, op).last == TooLarge && Perform(script, t, op).delivered == t.delivered
  {
    if op.Read? && t.body.remaining >= 0 {
      var s := t.body.source;
      var n := SourceRead(script, s, Min(op.len, t.body.remaining + 1)).0;
      var taken := Min(n, t.body.remaining);
      assert bytes[..s.pos] + bytes[s.pos..s.pos + taken] == bytes[..s.pos + taken];
    } else if op.Read? {
      assert t.delivered + [] == t.delivered;
    }
  }

  // Any reads and closes in any order, also after the end, after a failure and after the sticky error.
  ghost predicate Runs(script: Script, bytes: seq<Byte>, limit: nat, ops: seq<Op>, t: Trace)
    decreases |ops|
  {
    if ops == [] then t == Start(bytes, limit)
    else
      exists before :: Runs(script, bytes, limit, ops[..|ops| - 1], before)
        && before.body.source.pos <= |before.body.source.bytes| && t == Perform(script, before, ops[|ops| - 1])
  }

  lemma {:induction false} RunMatches(script: Script, bytes: seq<Byte>, limit: nat, ops: seq<Op>, t: Trace)
    requires Runs(script, bytes, limit, ops, t)
    ensures Matches(t, bytes, limit)
    decreases |ops|
  {
    if ops != [] {
      var before :| Runs(script, bytes, limit, ops[..|ops| - 1], before)
        && before.body.source.pos <= |before.body.source.bytes| && t == Perform(script, before, ops[|ops| - 1]);
      RunMatches(script, bytes, limit, ops[..|ops| - 1], before);
      PerformKeeps(script, before, ops[|ops| - 1], bytes, limit);
    }
  }

  /** Whatever the sizes of the reads and of the answers, what is delivered is a prefix of the source
      within the limit, and the source is closed at most once. */
  lemma DeliversPrefix(script: Script, bytes: seq<Byte>, limit: nat, ops: seq<Op>, t: Trace)
    requires Runs(script, bytes, limit, ops, t)
    ensures |t.delivered| <= limit && |t.delivered| <= |bytes| && t.delivered == bytes[..|t.delivered|]
    ensures t.body.source.closes <= 1
  {
    RunMatches(script, bytes, limit, ops, t);
  }

  /** Once a read has found the body too large, every later read does, and delivers nothing. */
  lemma TooLargeIsSticky(script: Script, bytes: seq<Byte>, limit: nat, ops: seq<Op>, t: Trace, len: nat)
    requires Runs(script, bytes, limit, ops, t) && t.last == TooLarge
    ensures t.body.source.pos <= |t.body.source.bytes|
    ensures ReadBody(script, t.body, len) == (t.body, [], TooLarge)
  {
    RunMatches(script, bytes, limit, ops, t);
  }

  /** A reader that reaches an end gets the whole source if it is within the limit, and otherwise
      exactly the limit and the error that says so. */
  lemma EndTellsSize(script: Script, bytes: seq<Byte>, limit: nat, ops: seq<Op>, t: Trace)
    requires Runs(script, bytes, limit, ops, t) && (t.last == EndOfFile || t.last == TooLarge)
    ensures t.last == EndOfFile <==> |bytes| <= limit
    ensures t.last == TooLarge <==> |bytes| > limit
    ensures t.delivered == if |bytes| <= limit then bytes else bytes[..limit]
  {
    RunMatches(script, bytes, limit, ops, t);
  }

  // ---------------------------------------------------------------- the compatible adapter

  // io.LimitedReader over the source, and what io.ReadAll has read from it.
  datatype Limited = Limited(source: Source, left: int, read: seq<Byte>, last: ReadError)

  function StartLimited(bytes: seq<Byte>, limit: nat): Limited {
    Limited(Source(bytes, 0, 0, 0), limit + 1, [], NoError)
  }

  function ReadLimited(script: Script, l: Limited, len: nat): Limited
    requires l.source.pos <= |l.source.bytes|
  {
    if l.left <= 0 then l.(last := EndOfFile)
    else
      var s := l.source;
      var (n, error) := SourceRead(script, s, Min(len, l.left));
      Limited(Advanced(s, n), l.left - n, l.read + s.bytes[s.pos..s.pos + n], error)
  }

  ghost predicate ReadsAll(script: Script, bytes: seq<Byte>, limit: nat, lens: seq<nat>, l: Limited)
    decreases |lens|
  {
    if lens == [] then l == StartLimited(bytes, limit)
    else
      exists before :: ReadsAll(script, bytes, limit, lens[..|lens| - 1], before) && before.last == NoError
        && before.source.pos <= |before.source.bytes| && l == ReadLimited(script, before, lens[|lens| - 1])
  }

  ghost predicate LimitedMatches(l: Limited, bytes: seq<Byte>, limit: nat) {
    && l.source.bytes == bytes && l.source.pos <= |bytes| && l.read == bytes[..l.source.pos]
    && 0 <= l.left == limit + 1 - l.source.pos
    && (l.last == EndOfFile ==> l.read == bytes || |l.read| == limit + 1)
  }

  lemma ReadLimitedKeeps(script: Script, l: Limited, len: nat, bytes: seq<Byte>, limit: nat)
    requires LimitedMatches(l, bytes, limit)
    ensures LimitedMatches(ReadLimited(script, l, len), bytes, limit)
  {
    var s, next := l.source, ReadLimited(script, l, len);
    if l.left > 0 {
      var n := SourceRead(script, s, Min(len, l.left)).0;
      assert bytes[..s.pos] + bytes[s.pos..s.pos + n] == bytes[..s.pos + n];
      assert next.source.pos == |bytes| ==> bytes[..next.source.pos] == bytes;
    }
  }

  lemma {:induction false} ReadsAllMatches(script: Script, bytes: seq<Byte>, limit: nat, lens: seq<nat>, l: Limited)
    requires ReadsAll(script, bytes, limit, lens, l)
    ensures LimitedMatches(l, bytes, limit)
    decreases |lens|
  {
    if lens != [] {
      var before :| ReadsAll(script, bytes, limit, lens[..|lens| - 1], before) && before.last == NoError
        && before.source.pos <= |before.source.bytes| && l == ReadLimited(script, before, lens[|lens| - 1]);
      ReadsAllMatches(script, bytes, limit, lens[..|lens| - 1], before);
      ReadLimitedKeeps(script, before, lens[|lens| - 1], bytes, limit);
    }
  }

  // readErr == nil && len(encoded) <= maxProviderResponse
  predicate Accepts(l: Limited, limit: nat) {
    l.last == EndOfFile && |l.read| <= limit
  }

  /** Read to an end that is not a failure of the source, by whatever reads, a body is accepted by the
      adapter's own loop exactly when the bounded body ends without its error, and both yield the same bytes. */
  lemma AdaptersAgree(
    script: Script, ops: seq<Op>, t: Trace, script': Script, lens: seq<nat>, l: Limited, bytes: seq<Byte>, limit: nat)
    requires Runs(script, bytes, limit, ops, t) && (t.last == EndOfFile || t.last == TooLarge)
    requires ReadsAll(script', bytes, limit, lens, l) && l.last == EndOfFile
    ensures Accepts(l, limit) <==> t.last == EndOfFile
    ensures Accepts(l, limit) ==> l.read == t.delivered == bytes
  {
    EndTellsSize(script, bytes, limit, ops, t);
    ReadsAllMatches(script', bytes, limit, lens, l);
  }

  /** Neither accepts anything but the whole source, even if the source may fail. */
  lemma AcceptedBodiesAreWhole(
    script: Script, bytes: seq<Byte>, limit: nat, ops: seq<Op>, t: Trace, lens: seq<nat>, l: Limited)
    requires Runs(script, bytes, limit, ops, t) && ReadsAll(script, bytes, limit, lens, l)
    ensures t.last == EndOfFile ==> t.delivered == bytes && |bytes| <= limit
    ensures Accepts(l, limit) ==> l.read == bytes && |bytes| <= limit
  {
    RunMatches(script, bytes, limit, ops, t);
    ReadsAllMatches(script, bytes, limit, lens, l);
  }

  // ---------------------------------------------------------------- the reader itself

  class ResponseBody {
    const script: Script
    const bytes: seq<Byte>
    var pos: nat
    var calls: nat
    var closes: nat
    var remaining: int
    var closed: bool

    ghost function Contents(): Body
      reads this
    {
      Body(Source(bytes, pos, calls, closes), remaining, closed)
    }

    constructor (script: Script, bytes: seq<Byte>, limit: nat)
      ensures Contents() == Start(bytes, limit).body && this.script == script
    {
      this.script, this.bytes := script, bytes;
      pos, calls, closes, remaining, closed := 0, 0, 0, limit, false;
    }

    // The source fills the front of the buffer.
    method SourceReads(buffer: array<Byte>, len: nat) returns (n: nat, error: ReadError)
      requires len <= buffer.Length && pos <= |bytes|
      modifies buffer, this`pos, this`calls
      ensures (n, error) == SourceRead(script, old(Contents()).source, len)
      ensures Contents().source == Advanced(old(Contents()).source, n)
      ensures n <= len && buffer[..n] == bytes[old(pos)..old(pos) + n]
      ensures buffer[n..] == old(buffer[n..])
    {
      var behaviour := script(calls);
      n := Min(len, Min(behaviour.most, |bytes| - pos));
      error := if behaviour.fails || closes > 0 then SourceFailed
               else if pos + n == |bytes| && (behaviour.eager || n == 0) then EndOfFile
               else NoError;
      var from := pos;
      pos, calls := pos + n, calls + 1;
      for i := 0 to n
        modifies buffer
        invariant forall k :: 0 <= k < i ==> buffer[k] == bytes[from + k]
        invariant forall k :: i <= k < buffer.Length ==> buffer[k] == old(buffer[k])
      {
        buffer[i] := bytes[from + i];
      }
    }

    method Close()
      modifies this`closed, this`closes
      ensures Contents() == Closed(old(Contents()))
    {
      if !closed { closed, closes := true, closes + 1; }
    }

    method Read(buffer: array<Byte>) returns (n: nat, error: ReadError)
      requires pos <= |bytes|
      modifies this, buffer
      ensures n <= buffer.Length
      ensures var (body, delivered, failure) := ReadBody(script, old(Contents()), buffer.Length);
              Contents() == body && buffer[..n] == delivered && error == failure
    {
      if remaining < 0 {
        assert buffer[..0] == [];
        return 0, TooLarge;
      }
      ghost var from := pos;
      n, error := SourceReads(buffer, Min(buffer.Length, remaining + 1));
      if n > remaining {
        assert buffer[..remaining] == buffer[..n][..remaining] == bytes[from..from + remaining];
        n, error := remaining, TooLarge;
        remaining := -1;
        Close();
      } else {
        remaining := remaining - n;
      }
    }
  }
}
