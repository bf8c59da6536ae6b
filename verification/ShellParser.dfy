/**
 The streaming parser of managed-shell output.

 The remote shell writes markers into its output: two `ESC ]777;...;nonce;payload BEL` requests,
 a prompt marker, and a fixed-width prompt slot.  The parser splits the stream into plain bytes
 and events while holding back anything that might still become a marker.

 `Parse` is the parser's meaning over a whole byte string.  The class `ShellOutputParser` is the
 incremental machine, and its `Feed` is proved to compute `Parse` of what it had buffered plus
 what it was fed.
 */
module ShellParser {
  import opened Wrappers

  // A byte, written as the character with the same code.
  type Byte = c: char | c <= '\U{FF}' witness 'a'
  type Bytes = seq<Byte>

  const ESC: Byte := '\U{1B}'
  const BEL: Byte := '\U{07}'

  datatype ConnectRequest = ConnectRequest(remote: Bytes, local: Option<Bytes>, name: Option<Bytes>)

  datatype Event =
    | BytesEvent(data: Bytes)
    | BarrierEvent(status: int)
    | ConnectRequestEvent(request: ConnectRequest)
    | PromptEvent(slotAuthorized: bool)
    | PromptSlotEvent

  // The two payload decoders, which rest on library code (integer parsing, base64, JSON and name
  // validation), are parameters.
  datatype Decoders = Decoders(
    status: Bytes -> Option<int>,
    connect: Bytes -> Option<ConnectRequest>)

  predicate HexDigest(digest: Bytes) {
    && |digest| == 64
    && forall i :: 0 <= i < 64 ==> '0' <= digest[i] <= '9' || 'a' <= digest[i] <= 'f'
  }

  // The prompt slot: a 34-byte placeholder the terminal overwrites with the live label.
  function SlotSentinel(digest: Bytes): Bytes
    requires HexDigest(digest)
  {
    "[" + ("rsb-slot:" + digest)[..32] + "]"
  }

  const COMMAND_DONE_HEAD: Bytes := "\U{1B}]777;remote-sandbox;cmd-done;"
  const CONNECT_HEAD: Bytes := "\U{1B}]777;rsb;connect-request;"
  const PROMPT_HEAD: Bytes := "\U{1B}]777;rsb;prompt;"

  // A marker is identified by the index of its prefix.
  const COMMAND_DONE := 0
  const CONNECT := 1
  const PROMPT := 2
  const SLOT := 3

  // The marker prefixes for a nonce, given the hexadecimal SHA-256 digest of that nonce.
  function Prefixes(nonce: Bytes, digest: Bytes): (prefixes: seq<Bytes>)
    requires HexDigest(digest)
    ensures ValidPrefixes(prefixes)
  {
    [COMMAND_DONE_HEAD + nonce + ";", CONNECT_HEAD + nonce + ";", PROMPT_HEAD + nonce, SlotSentinel(digest)]
  }

  predicate ValidPrefixes(prefixes: seq<Bytes>) {
    |prefixes| == 4 && forall p | p in prefixes :: |p| > 0
  }

  // ---------------------------------------------------------------- searching

  // `pattern` occurs in `s` at offset `i`.
  predicate At(s: Bytes, i: int, pattern: Bytes) {
    0 <= i && i + |pattern| <= |s| && s[i..i + |pattern|] == pattern
  }

  // The first occurrence at or after `from`, as `bytes.find` computes it.
  function Find(s: Bytes, pattern: Bytes, from: nat): (r: Option<nat>)
    ensures r.None? ==> forall i :: from <= i ==> !At(s, i, pattern)
    ensures r.Some? ==> from <= r.value && At(s, r.value, pattern)
                        && forall i :: from <= i < r.value ==> !At(s, i, pattern)
    decreases |s| - from
  {
    if from + |pattern| > |s| then None
    else if At(s, from, pattern) then Some(from)
    else Find(s, pattern, from + 1)
  }

  // A suffix of `s` of length `k` that is a proper prefix of `pattern`.
  predicate Overlap(s: Bytes, pattern: Bytes, k: int) {
    0 <= k <= |s| && k < |pattern| && s[|s| - k..] == pattern[..k]
  }

  function LongestOverlap(s: Bytes, pattern: Bytes, bound: nat): (r: nat)
    requires bound <= |s| && bound < |pattern|
    ensures r <= bound && Overlap(s, pattern, r)
    ensures forall k :: r < k <= bound ==> !Overlap(s, pattern, k)
  {
    if bound == 0 || Overlap(s, pattern, bound) then bound else LongestOverlap(s, pattern, bound - 1)
  }

  // Tries the candidates from the longest down and stops at the first that fits.
  method FindLongestOverlap(data: Bytes, pattern: Bytes) returns (length: nat)
    requires |pattern| > 0
    ensures Overlap(data, pattern, length)
    ensures forall k :: length < k ==> !Overlap(data, pattern, k)
  {
    length := if |data| < |pattern| - 1 then |data| else |pattern| - 1;
    while length > 0
      invariant length <= |data| && length < |pattern|
      invariant forall k :: length < k ==> !Overlap(data, pattern, k)
    {
      if data[|data| - length..] == pattern[..length] {
        return;
      }
      length := length - 1;
    }
  }

  function Min(a: nat, b: nat): nat { if a < b then a else b }
  function Max(a: nat, b: nat): nat { if a < b then b else a }

  // How many trailing bytes might still grow into one of the first `n` prefixes.
  function KeepAmong(prefixes: seq<Bytes>, s: Bytes, n: nat): (keep: nat)
    requires ValidPrefixes(prefixes) && 0 < n <= |prefixes|
    ensures keep <= |s|
    ensures forall j, k | 0 <= j < n && keep < k :: !Overlap(s, prefixes[j], k)
    ensures exists j :: 0 <= j < n && Overlap(s, prefixes[j], keep)
  {
    var p := prefixes[n - 1];
    var last := LongestOverlap(s, p, Min(|s|, |p| - 1));
    if n == 1 then last else Max(KeepAmong(prefixes, s, n - 1), last)
  }

  function Keep(prefixes: seq<Bytes>, s: Bytes): nat
    requires ValidPrefixes(prefixes)
  {
    KeepAmong(prefixes, s, 4)
  }

  datatype Hit = Hit(start: nat, kind: nat)

  // The earliest marker among the first `n` prefixes; at one offset the earlier prefix wins.
  function NextAmong(prefixes: seq<Bytes>, s: Bytes, n: nat): (r: Option<Hit>)
    requires n <= |prefixes|
    ensures r.None? ==> forall i, j | 0 <= j < n :: !At(s, i, prefixes[j])
    ensures r.Some? ==> r.value.kind < n && At(s, r.value.start, prefixes[r.value.kind])
    ensures r.Some? ==> forall i, j | 0 <= j < n && i < r.value.start :: !At(s, i, prefixes[j])
  {
    if n == 0 then None
    else
      var best := NextAmong(prefixes, s, n - 1);
      var found := Find(s, prefixes[n - 1], 0);
      if found.Some? && (best.None? || found.value < best.value.start)
      then Some(Hit(found.value, n - 1)) else best
  }

  function NextMarker(prefixes: seq<Bytes>, s: Bytes): Option<Hit>
    requires ValidPrefixes(prefixes)
  {
    NextAmong(prefixes, s, 4)
  }

  // ---------------------------------------------------------------- meaning of a stream

  // What a complete marker of a given kind and payload stands for, if it is well formed.
  function ParseMarker(decoders: Decoders, kind: nat, payload: Bytes): Option<Event> {
    if kind == COMMAND_DONE then
      match decoders.status(payload) case None => None case Some(n) => Some(BarrierEvent(n))
    else if kind == CONNECT then
      match decoders.connect(payload) case None => None case Some(c) => Some(ConnectRequestEvent(c))
    else if kind != PROMPT then None
    else if payload == ";enter" then Some(PromptEvent(false))
    else if payload == ";managed" then Some(PromptEvent(true))
    else None
  }

  // An event together with the stretch of the stream it came from.
  datatype Token = Token(raw: Bytes, event: Event)

  datatype Parsed = Parsed(tokens: seq<Token>, rest: Bytes, authorized: bool)

  function Plain(raw: Bytes): seq<Token> {
    if raw == [] then [] else [Token(raw, BytesEvent(raw))]
  }

  // The authorization bit after one event.
  function Authorize(event: Event, authorized: bool): bool {
    match event
    case PromptEvent(slot) => slot
    case ConnectRequestEvent(_) => false
    case PromptSlotEvent => false
    case _ => authorized
  }

  function SlotToken(prefixes: seq<Bytes>, authorized: bool): Token
    requires ValidPrefixes(prefixes)
  {
    Token(prefixes[SLOT], if authorized then PromptSlotEvent else BytesEvent(prefixes[SLOT]))
  }

  function MarkerToken(prefixes: seq<Bytes>, decoders: Decoders, kind: nat, payload: Bytes): Token
    requires ValidPrefixes(prefixes) && kind < 4
  {
    var raw := prefixes[kind] + payload + [BEL];
    match ParseMarker(decoders, kind, payload)
    case None => Token(raw, BytesEvent(raw))
    case Some(event) => Token(raw, event)
  }

  function Prepend(tokens: seq<Token>, p: Parsed): Parsed {
    Parsed(tokens + p.tokens, p.rest, p.authorized)
  }

  // Parsing from a marker that starts at offset 0.
  function ParseAtMarker(prefixes: seq<Bytes>, decoders: Decoders, s: Bytes, kind: nat, authorized: bool): Parsed
    requires ValidPrefixes(prefixes) && kind < 4 && At(s, 0, prefixes[kind])
    decreases |s|, 0
  {
    var n := |prefixes[kind]|;
    if kind == SLOT then
      Prepend([SlotToken(prefixes, authorized)], Parse(prefixes, decoders, s[n..], false))
    else
      match Find(s, [BEL], n)
      case None => Parsed([], s, authorized)
      case Some(end) =>
        var token := MarkerToken(prefixes, decoders, kind, s[n..end]);
        Prepend([token], Parse(prefixes, decoders, s[end + 1..], Authorize(token.event, authorized)))
  }

  // The events of a stream, the bytes held back, and the authorization bit left behind.
  function Parse(prefixes: seq<Bytes>, decoders: Decoders, s: Bytes, authorized: bool): Parsed
    requires ValidPrefixes(prefixes)
    decreases |s|, 1
  {
    match NextMarker(prefixes, s)
    case None =>
      var n := |s| - Keep(prefixes, s);
      Parsed(Plain(s[..n]), s[n..], authorized)
    case Some(hit) =>
      var i := hit.start;
      assert s[i..][0..|prefixes[hit.kind]|] == s[i..i + |prefixes[hit.kind]|];
      if i == 0 then ParseAtMarker(prefixes, decoders, s, hit.kind, authorized)
      else Prepend(Plain(s[..i]), ParseAtMarker(prefixes, decoders, s[i..], hit.kind, authorized))
  }

  function Events(tokens: seq<Token>): seq<Event> {
    seq(|tokens|, i requires 0 <= i < |tokens| => tokens[i].event)
  }

  lemma PrependAssociates(a: seq<Token>, b: seq<Token>, p: Parsed)
    ensures Prepend(a, Prepend(b, p)) == Prepend(a + b, p)
    ensures Events(a + b) == Events(a) + Events(b)
  {
    assert a + (b + p.tokens) == (a + b) + p.tokens;
  }

  // With no marker left, there is one run of plain bytes and then what is held back.
  lemma NoMarkerLeft(ps: seq<Bytes>, d: Decoders, s: Bytes, authorized: bool)
    requires ValidPrefixes(ps) && NextMarker(ps, s) == None
    ensures var n := |s| - Keep(ps, s);
            Parse(ps, d, s, authorized) == Parsed(Plain(s[..n]), s[n..], authorized) && (n == 0 ==> s[n..] == s)
  {
  }

  // The marker at the front is one token, and parsing goes on behind it.
  lemma AtTerminatedMarker(ps: seq<Bytes>, d: Decoders, s: Bytes, kind: nat, end: nat, authorized: bool)
    requires ValidPrefixes(ps) && kind < 4 && kind != SLOT && At(s, 0, ps[kind]) && Find(s, [BEL], |ps[kind]|) == Some(end)
    ensures var token := MarkerToken(ps, d, kind, s[|ps[kind]|..end]);
            ParseAtMarker(ps, d, s, kind, authorized)
            == Prepend([token], Parse(ps, d, s[end + 1..], Authorize(token.event, authorized)))
  {
  }

  lemma AtOpenMarker(ps: seq<Bytes>, d: Decoders, s: Bytes, kind: nat, authorized: bool)
    requires ValidPrefixes(ps) && kind < 4 && kind != SLOT && At(s, 0, ps[kind]) && Find(s, [BEL], |ps[kind]|) == None
    ensures ParseAtMarker(ps, d, s, kind, authorized) == Parsed([], s, authorized)
  {
  }

  lemma AtSlot(ps: seq<Bytes>, d: Decoders, s: Bytes, authorized: bool)
    requires ValidPrefixes(ps) && At(s, 0, ps[SLOT])
    ensures ParseAtMarker(ps, d, s, SLOT, authorized)
            == Prepend([SlotToken(ps, authorized)], Parse(ps, d, s[|ps[SLOT]|..], false))
  {
  }

  lemma PlainEvents(raw: Bytes)
    ensures Events(Plain(raw)) == if raw == [] then [] else [BytesEvent(raw)]
  {
  }

  // The bytes of a marker with its terminator at `end`.
  lemma MarkerBytes(s: Bytes, n: nat, end: nat)
    requires n <= end && At(s, end, [BEL])
    ensures s[..end + 1] == s[..n] + s[n..end] + [BEL]
  {
    assert s[end..end + 1] == [BEL];
    assert s[..end + 1] == s[..end] + s[end..end + 1];
  }

  lemma NothingBuffered(ps: seq<Bytes>, d: Decoders, authorized: bool)
    requires ValidPrefixes(ps)
    ensures Parse(ps, d, [], authorized) == Parsed([], [], authorized)
  {
  }

  // With a marker ahead, the bytes in front of it are one run of plain bytes.
  lemma MarkerAhead(ps: seq<Bytes>, d: Decoders, s: Bytes, authorized: bool)
    requires ValidPrefixes(ps) && NextMarker(ps, s).Some?
    ensures var hit := NextMarker(ps, s).value;
            && At(s[hit.start..], 0, ps[hit.kind])
            && Parse(ps, d, s, authorized)
               == Prepend(Plain(s[..hit.start]), ParseAtMarker(ps, d, s[hit.start..], hit.kind, authorized))
            && (hit.start == 0 ==> s[hit.start..] == s)
  {
    var hit := NextMarker(ps, s).value;
    var i := hit.start;
    assert s[i..][0..|ps[hit.kind]|] == s[i..i + |ps[hit.kind]|];
    var p := ParseAtMarker(ps, d, s[i..], hit.kind, authorized);
    if i == 0 { assert s[i..] == s && [] + p.tokens == p.tokens; }
  }

  // ---------------------------------------------------------------- the incremental machine

  class ShellOutputParser {
    const prefixes: seq<Bytes>
    const decoders: Decoders
    var buffer: Bytes
    var promptSlotAuthorized: bool

    ghost predicate Valid() {
      ValidPrefixes(prefixes)
    }

    constructor (nonce: Bytes, digest: Bytes, decoders: Decoders)
      requires HexDigest(digest)
      ensures Valid() && prefixes == Prefixes(nonce, digest) && this.decoders == decoders
      ensures buffer == [] && !promptSlotAuthorized
    {
      this.prefixes := Prefixes(nonce, digest);
      this.decoders := decoders;
      buffer, promptSlotAuthorized := [], false;
    }

    // The number of trailing buffered bytes to hold back: the best of the four overlaps.
    method OverlapToKeep() returns (keep: nat)
      requires Valid()
      ensures keep == Keep(prefixes, buffer)
    {
      keep := FindLongestOverlap(buffer, prefixes[0]);
      var j := 1;
      while j < 4
        invariant 1 <= j <= 4
        invariant keep <= |buffer|
        invariant exists i :: 0 <= i < j && Overlap(buffer, prefixes[i], keep)
        invariant forall i, k | 0 <= i < j && keep < k :: !Overlap(buffer, prefixes[i], k)
      {
        var candidate := FindLongestOverlap(buffer, prefixes[j]);
        keep := Max(keep, candidate);
        j := j + 1;
      }
    }

    // The prompt slot ends with its own last byte.
    method TakeSlot() returns (event: Event, ghost token: Token)
      requires Valid() && At(buffer, 0, prefixes[SLOT])
      modifies this
      ensures event == token.event && |buffer| < |old(buffer)|
      ensures ParseAtMarker(prefixes, decoders, old(buffer), SLOT, old(promptSlotAuthorized))
              == Prepend([token], Parse(prefixes, decoders, buffer, promptSlotAuthorized))
    {
      AtSlot(prefixes, decoders, buffer, promptSlotAuthorized);
      token := SlotToken(prefixes, promptSlotAuthorized);
      if promptSlotAuthorized {
        event := PromptSlotEvent;
        promptSlotAuthorized := false;
      } else {
        event := BytesEvent(prefixes[SLOT]);
      }
      buffer := buffer[|prefixes[SLOT]|..];
    }

    // A marker whose terminator is at `end`.
    method TakeTerminated(kind: nat, end: nat) returns (event: Event, ghost token: Token)
      requires Valid() && kind < 4 && kind != SLOT && At(buffer, 0, prefixes[kind])
      requires Find(buffer, [BEL], |prefixes[kind]|) == Some(end)
      modifies this
      ensures event == token.event && |buffer| < |old(buffer)|
      ensures ParseAtMarker(prefixes, decoders, old(buffer), kind, old(promptSlotAuthorized))
              == Prepend([token], Parse(prefixes, decoders, buffer, promptSlotAuthorized))
    {
      AtTerminatedMarker(prefixes, decoders, buffer, kind, end, promptSlotAuthorized);
      var n := |prefixes[kind]|;
      var payload := buffer[n..end];
      token := MarkerToken(prefixes, decoders, kind, payload);
      var parsed := ParseMarker(decoders, kind, payload);
      if parsed == None {
        MarkerBytes(buffer, n, end);
        event := BytesEvent(buffer[..end + 1]);
      } else {
        event := parsed.value;
        if event.PromptEvent? {
          promptSlotAuthorized := event.slotAuthorized;
        } else if event.ConnectRequestEvent? {
          promptSlotAuthorized := false;
        }
      }
      buffer := buffer[end + 1..];
    }

    // Handles the marker at the front of the buffer, or waits when its terminator has not arrived.
    method TakeMarker(kind: nat) returns (event: Option<Event>, ghost token: Token)
      requires Valid() && kind < 4 && At(buffer, 0, prefixes[kind])
      modifies this
      ensures event.None? ==>
        && buffer == old(buffer) && promptSlotAuthorized == old(promptSlotAuthorized)
        && ParseAtMarker(prefixes, decoders, buffer, kind, promptSlotAuthorized)
           == Parsed([], buffer, promptSlotAuthorized)
      ensures event.Some? ==>
        && |buffer| < |old(buffer)| && event.value == token.event
        && ParseAtMarker(prefixes, decoders, old(buffer), kind, old(promptSlotAuthorized))
           == Prepend([token], Parse(prefixes, decoders, buffer, promptSlotAuthorized))
    {
      var e;
      if kind == SLOT {
        e, token := TakeSlot();
        return Some(e), token;
      }
      var end := Find(buffer, [BEL], |prefixes[kind]|);
      if end == None {
        AtOpenMarker(prefixes, decoders, buffer, kind, promptSlotAuthorized);
        event, token := None, Token([], PromptSlotEvent);
        return;
      }
      e, token := TakeTerminated(kind, end.value);
      event := Some(e);
    }

    // With no marker in the buffer, everything but a possible beginning of one is plain output.
    method EmitPlain() returns (events: seq<Event>, ghost tokens: seq<Token>)
      requires Valid() && NextMarker(prefixes, buffer) == None
      modifies this
      ensures events == Events(tokens)
      ensures Parse(prefixes, decoders, old(buffer), old(promptSlotAuthorized))
              == Parsed(tokens, buffer, promptSlotAuthorized)
    {
      NoMarkerLeft(prefixes, decoders, buffer, promptSlotAuthorized);
      var keep := OverlapToKeep();
      var n := |buffer| - keep;
      tokens := Plain(buffer[..n]);
      PlainEvents(buffer[..n]);
      events := [];
      if n > 0 {
        events := [BytesEvent(buffer[..n])];
        buffer := buffer[n..];
      }
    }

    // One turn of the feeding loop; `more` is false when it has to wait for input.
    method Advance() returns (events: seq<Event>, more: bool, ghost tokens: seq<Token>)
      requires Valid() && buffer != []
      modifies this
      ensures events == Events(tokens)
      ensures !more ==>
        Parse(prefixes, decoders, old(buffer), old(promptSlotAuthorized))
        == Parsed(tokens, buffer, promptSlotAuthorized)
      ensures more ==>
        && |buffer| < |old(buffer)|
        && Parse(prefixes, decoders, old(buffer), old(promptSlotAuthorized))
           == Prepend(tokens, Parse(prefixes, decoders, buffer, promptSlotAuthorized))
    {
      var next := NextMarker(prefixes, buffer);
      if next == None {
        events, tokens := EmitPlain();
        more := false;
        return;
      }
      var start, kind := next.value.start, next.value.kind;
      MarkerAhead(prefixes, decoders, buffer, promptSlotAuthorized);
      ghost var plain := Plain(buffer[..start]);
      events := [];
      if start > 0 {
        events := [BytesEvent(buffer[..start])];
        buffer := buffer[start..];
      }
      assert events == Events(plain);
      var event, token := TakeMarker(kind);
      if event == None {
        tokens, more := plain, false;
        assert plain + [] == plain;
        return;
      }
      PrependAssociates(plain, [token], Parse(prefixes, decoders, buffer, promptSlotAuthorized));
      tokens, events, more := plain + [token], events + [event.value], true;
    }

    // Consumes what can be decided now and keeps the rest for the next chunk.
    method Feed(data: Bytes) returns (events: seq<Event>)
      requires Valid()
      modifies this
      ensures var p := Parse(prefixes, decoders, old(buffer) + data, old(promptSlotAuthorized));
              events == Events(p.tokens) && buffer == p.rest && promptSlotAuthorized == p.authorized
    {
      buffer := buffer + data;
      events := [];
      ghost var whole := Parse(prefixes, decoders, buffer, promptSlotAuthorized);
      ghost var tokens: seq<Token> := [];
      assert [] + whole.tokens == whole.tokens;
      var more := true;
      while more && buffer != []
        invariant more ==> whole == Prepend(tokens, Parse(prefixes, decoders, buffer, promptSlotAuthorized))
        invariant !more ==> whole == Parsed(tokens, buffer, promptSlotAuthorized)
        invariant events == Events(tokens)
        decreases more, |buffer|
      {
        ghost var before := buffer;
        ghost var authorizedBefore := promptSlotAuthorized;
        var found;
        ghost var taken;
        found, more, taken := Advance();
        PrependAssociates(tokens, taken, if more then Parse(prefixes, decoders, buffer, promptSlotAuthorized)
                                         else Parsed([], buffer, promptSlotAuthorized));
        assert tokens + (taken + []) == tokens + taken;
        events, tokens := events + found, tokens + taken;
      }
      if more {
        NothingBuffered(prefixes, decoders, promptSlotAuthorized);
        assert tokens + [] == tokens;
      }
    }

    // At the end of the stream, whatever is still held back is plain output.
    method Flush() returns (events: seq<Event>)
      modifies this
      ensures events == if old(buffer) == [] then [] else [BytesEvent(old(buffer))]
      ensures buffer == [] && promptSlotAuthorized == old(promptSlotAuthorized)
    {
      events := if buffer == [] then [] else [BytesEvent(buffer)];
      buffer := [];
    }
  }
}
