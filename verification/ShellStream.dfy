/**
 Laws of the shell-output parser over whole streams: the events do not depend on how the stream
 was cut into chunks, no byte is lost, and a prompt slot is only ever honoured right after the
 managed prompt that announced it.
 */
module ShellStream {
  import opened Wrappers
  import opened ShellParser

  // ---------------------------------------------------------------- markers do not overlap

  // No marker prefix occurs inside, or is a prefix of, a different one.
  ghost predicate Separated(prefixes: seq<Bytes>) {
    forall j, i, k | 0 <= j < |prefixes| && 0 <= k < |prefixes| ::
      At(prefixes[j], i, prefixes[k]) ==> i == 0 && j == k
  }

  // The slot sentinel inside the nonce: the only way one marker can occur inside another.
  ghost predicate SlotInNonce(nonce: Bytes, digest: Bytes)
    requires HexDigest(digest)
  {
    exists i :: At(nonce, i, SlotSentinel(digest))
  }

  lemma OccurrenceStarts(s: Bytes, i: int, pattern: Bytes, k: nat)
    requires At(s, i, pattern) && k < |pattern|
    ensures s[i + k] == pattern[k]
  {
    assert s[i..i + |pattern|][k] == pattern[k];
  }

  lemma SlotBytes(digest: Bytes, i: nat)
    requires HexDigest(digest) && i < 34
    ensures |SlotSentinel(digest)| == 34 && SlotSentinel(digest)[0] == '['
    ensures SlotSentinel(digest)[i] != ESC
    ensures SlotSentinel(digest)[i] == ']' <==> i == 33
    ensures SlotSentinel(digest)[i] == '[' <==> i == 0
  {
    var body: Bytes := "rsb-slot:" + digest;
    if 1 <= i < 33 {
      assert SlotSentinel(digest)[i] == body[i - 1];
      if i - 1 >= 9 { assert body[i - 1] == digest[i - 10]; }
    }
  }

  function Head(j: nat): Bytes
    requires j < 3
  {
    if j == 0 then COMMAND_DONE_HEAD else if j == 1 then CONNECT_HEAD else PROMPT_HEAD
  }

  lemma HeadBytes(j: nat, i: nat)
    requires j < 3 && i < |Head(j)|
    ensures Head(j)[i] == ESC <==> i == 0
    ensures Head(j)[i] != '['
    ensures |Head(j)| > 10
  {
  }

  lemma HeadsDiffer(j: nat, k: nat)
    requires j < 3 && k < 3 && j != k
    ensures |Head(j)| > 10 && |Head(k)| > 10
    ensures Head(j)[7] != Head(k)[7] || Head(j)[10] != Head(k)[10]
  {
  }

  lemma PrefixShape(nonce: Bytes, digest: Bytes, j: nat)
    requires HexDigest(digest) && j < 3
    ensures var p := Prefixes(nonce, digest)[j];
            && |Head(j)| + |nonce| <= |p| <= |Head(j)| + |nonce| + 1
            && p[..|Head(j)|] == Head(j) && p[|Head(j)|..|Head(j)| + |nonce|] == nonce
            && (|p| > |Head(j)| + |nonce| ==> p[|p| - 1] == ';')
  {
  }

  lemma EscMarkerInside(nonce: Bytes, digest: Bytes, j: nat, i: int, k: nat)
    requires HexDigest(digest) && j < 3 && k < 3
    requires At(Prefixes(nonce, digest)[j], i, Prefixes(nonce, digest)[k])
    ensures i == 0 && j == k
  {
    var o, p := Prefixes(nonce, digest)[j], Prefixes(nonce, digest)[k];
    PrefixShape(nonce, digest, j);
    PrefixShape(nonce, digest, k);
    HeadBytes(j, 0);
    HeadBytes(k, 0);
    OccurrenceStarts(o, i, p, 0);
    assert p[0] == Head(k)[0];
    if i < |Head(j)| {
      assert o[i] == Head(j)[i];
      HeadBytes(j, i);
      OccurrenceStarts(o, 0, p, 7);
      OccurrenceStarts(o, 0, p, 10);
      assert o[7] == Head(j)[7] && p[7] == Head(k)[7] && o[10] == Head(j)[10] && p[10] == Head(k)[10];
      if j != k { HeadsDiffer(j, k); }
    }
  }

  lemma SlotInside(nonce: Bytes, digest: Bytes, j: nat, i: int)
    requires HexDigest(digest) && j < 3
    requires At(Prefixes(nonce, digest)[j], i, SlotSentinel(digest))
    ensures i >= |Head(j)| && At(nonce, i - |Head(j)|, SlotSentinel(digest))
  {
    var o, p := Prefixes(nonce, digest)[j], SlotSentinel(digest);
    PrefixShape(nonce, digest, j);
    SlotBytes(digest, 0);
    SlotBytes(digest, 33);
    OccurrenceStarts(o, i, p, 0);
    OccurrenceStarts(o, i, p, 33);
    var h := |Head(j)|;
    if i < h {
      assert o[i] == Head(j)[i];
      HeadBytes(j, i);
    }
    assert o[i + 33] == ']' && i + 34 <= h + |nonce|;
    SliceOfSlice(o, h, h + |nonce|, i, i + 34);
  }

  lemma SliceOfSlice(s: Bytes, a: nat, b: nat, i: nat, j: nat)
    requires a <= i <= j <= b <= |s|
    ensures s[a..b][i - a..j - a] == s[i..j]
  {
    assert forall k | 0 <= k < j - i :: s[a..b][i - a..j - a][k] == s[i..j][k];
  }

  lemma EscMarkerInSlot(nonce: Bytes, digest: Bytes, i: int, k: nat)
    requires HexDigest(digest) && k < 3
    ensures !At(SlotSentinel(digest), i, Prefixes(nonce, digest)[k])
  {
    if At(SlotSentinel(digest), i, Prefixes(nonce, digest)[k]) {
      var p := Prefixes(nonce, digest)[k];
      PrefixShape(nonce, digest, k);
      HeadBytes(k, 0);
      assert p[0] == Head(k)[0];
      OccurrenceStarts(SlotSentinel(digest), i, p, 0);
      SlotBytes(digest, i);
    }
  }

  // Whatever the nonce, markers can only nest when the slot sentinel is inside the nonce.
  lemma SeparatedIffSlotNotInNonce(nonce: Bytes, digest: Bytes)
    requires HexDigest(digest)
    ensures Separated(Prefixes(nonce, digest)) <==> !SlotInNonce(nonce, digest)
  {
    var ps, slot := Prefixes(nonce, digest), SlotSentinel(digest);
    SlotBytes(digest, 0);
    if SlotInNonce(nonce, digest) {
      var i :| At(nonce, i, slot);
      PrefixShape(nonce, digest, PROMPT);
      var h := |Head(PROMPT)|;
      assert ps[PROMPT][h + i..h + i + |slot|] == slot;
      assert At(ps[PROMPT], h + i, ps[SLOT]);
    } else {
      forall j, i, k | 0 <= j < 4 && 0 <= k < 4 && At(ps[j], i, ps[k])
        ensures i == 0 && j == k
      {
        if j < 3 && k < 3 {
          EscMarkerInside(nonce, digest, j, i, k);
        } else if j < 3 {
          SlotInside(nonce, digest, j, i);
        } else if k < 3 {
          EscMarkerInSlot(nonce, digest, i, k);
        }
      }
    }
  }

  // ---------------------------------------------------------------- where the next marker is

  lemma SameKindAt(ps: seq<Bytes>, s: Bytes, i: int, k1: nat, k2: nat)
    requires ValidPrefixes(ps) && Separated(ps)
    requires k1 < 4 && k2 < 4 && At(s, i, ps[k1]) && At(s, i, ps[k2])
    ensures k1 == k2
    decreases |ps[k2]| < |ps[k1]|
  {
    var p1, p2 := ps[k1], ps[k2];
    if |p1| <= |p2| {
      assert p2[0..|p1|] == s[i..i + |p1|];
      assert At(p2, 0, p1);
    } else {
      SameKindAt(ps, s, i, k2, k1);
    }
  }

  lemma AtExtends(s: Bytes, t: Bytes, i: int, p: Bytes)
    ensures At(s, i, p) ==> At(s + t, i, p)
    ensures At(s + t, i, p) && i + |p| <= |s| ==> At(s, i, p)
  {
    if 0 <= i && i + |p| <= |s| { assert (s + t)[i..i + |p|] == s[i..i + |p|]; }
  }

  lemma AtShift(raw: Bytes, u: Bytes, i: int, p: Bytes)
    requires i >= 0
    ensures At(raw + u, |raw| + i, p) == At(u, i, p)
  {
    if i + |p| <= |u| { assert (raw + u)[|raw| + i..|raw| + i + |p|] == u[i..i + |p|]; }
  }

  // More input never moves a marker that was already found.
  lemma {:induction false} NextMarkerStable(ps: seq<Bytes>, s: Bytes, t: Bytes)
    requires ValidPrefixes(ps) && Separated(ps) && NextMarker(ps, s).Some?
    ensures NextMarker(ps, s + t) == NextMarker(ps, s)
  {
    var hit := NextMarker(ps, s).value;
    var p := ps[hit.kind];
    AtExtends(s, t, hit.start, p);
    assert At(s + t, hit.start, ps[hit.kind]);
    var other := NextMarker(ps, s + t).value;
    var q := ps[other.kind];
    AtExtends(s, t, other.start, q);
    if other.start < hit.start {
      assert !At(s, other.start, ps[other.kind]);
      var d := hit.start - other.start;
      assert q[d..d + |p|] == (s + t)[hit.start..hit.start + |p|] by {
        assert q == (s + t)[other.start..other.start + |q|];
      }
      assert At(q, d, p);
    } else {
      SameKindAt(ps, s + t, hit.start, hit.kind, other.kind);
    }
  }

  lemma NextMarkerAtStart(ps: seq<Bytes>, s: Bytes, kind: nat)
    requires ValidPrefixes(ps) && Separated(ps) && kind < 4 && At(s, 0, ps[kind])
    ensures NextMarker(ps, s) == Some(Hit(0, kind))
  {
    var hit := NextMarker(ps, s).value;
    SameKindAt(ps, s, 0, kind, hit.kind);
  }

  lemma {:induction false} NextMarkerShift(ps: seq<Bytes>, raw: Bytes, u: Bytes)
    requires ValidPrefixes(ps) && Separated(ps)
    requires forall j, kind | 0 <= j < |raw| && 0 <= kind < 4 :: !At(raw + u, j, ps[kind])
    ensures NextMarker(ps, u).None? ==> NextMarker(ps, raw + u).None?
    ensures NextMarker(ps, u).Some? ==>
              NextMarker(ps, raw + u)
              == Some(Hit(|raw| + NextMarker(ps, u).value.start, NextMarker(ps, u).value.kind))
  {
    var long, short := NextMarker(ps, raw + u), NextMarker(ps, u);
    if long.Some? {
      var i := long.value.start - |raw|;
      assert i >= 0;
      AtShift(raw, u, i, ps[long.value.kind]);
      assert At(u, i, ps[long.value.kind]);
    }
    if short.Some? {
      AtShift(raw, u, short.value.start, ps[short.value.kind]);
      assert At(raw + u, |raw| + short.value.start, ps[short.value.kind]);
      SameKindAt(ps, u, short.value.start, long.value.kind, short.value.kind);
    }
  }

  // ---------------------------------------------------------------- events up to chunking

  // Byte runs are compared byte by byte, so that only their cutting into events is forgotten.
  datatype Atom = ByteAtom(b: Byte) | EventAtom(event: Event)

  function ByteAtoms(data: Bytes): seq<Atom> {
    seq(|data|, i requires 0 <= i < |data| => ByteAtom(data[i]))
  }

  function Atoms(tokens: seq<Token>): seq<Atom> {
    if tokens == [] then []
    else (if tokens[0].event.BytesEvent? then ByteAtoms(tokens[0].event.data)
          else [EventAtom(tokens[0].event)]) + Atoms(tokens[1..])
  }

  lemma {:induction false} AtomsConcat(a: seq<Token>, b: seq<Token>)
    ensures Atoms(a + b) == Atoms(a) + Atoms(b)
  {
    if a == [] {
      assert a + b == b;
    } else {
      assert (a + b)[1..] == a[1..] + b;
      AtomsConcat(a[1..], b);
    }
  }

  lemma PlainAtoms(a: Bytes, b: Bytes)
    ensures Atoms(Plain(a)) == ByteAtoms(a)
    ensures Atoms(Plain(a + b)) == Atoms(Plain(a) + Plain(b))
  {
    AtomsConcat(Plain(a), Plain(b));
    assert ByteAtoms(a + b) == ByteAtoms(a) + ByteAtoms(b);
  }

  // The same events, held-back bytes and authorization.
  ghost predicate Same(p: Parsed, q: Parsed) {
    Atoms(p.tokens) == Atoms(q.tokens) && p.rest == q.rest && p.authorized == q.authorized
  }

  lemma SamePrepend(tokens: seq<Token>, p: Parsed, q: Parsed)
    requires Same(p, q)
    ensures Same(Prepend(tokens, p), Prepend(tokens, q))
  {
    AtomsConcat(tokens, p.tokens);
    AtomsConcat(tokens, q.tokens);
  }

  lemma PrependTwice(a: seq<Token>, b: seq<Token>, p: Parsed)
    ensures Prepend(a, Prepend(b, p)) == Prepend(a + b, p)
  {
    assert a + (b + p.tokens) == (a + b) + p.tokens;
  }

  lemma OverlapShift(raw: Bytes, u: Bytes, p: Bytes, k: nat)
    requires k <= |u|
    ensures Overlap(raw + u, p, k) == Overlap(u, p, k)
  {
    assert (raw + u)[|raw + u| - k..] == u[|u| - k..];
  }

  lemma KeepShift(ps: seq<Bytes>, raw: Bytes, u: Bytes)
    requires ValidPrefixes(ps)
    requires forall k, kind | k > |u| && 0 <= kind < 4 :: !Overlap(raw + u, ps[kind], k)
    ensures Keep(ps, raw + u) == Keep(ps, u)
  {
    var long, short := Keep(ps, raw + u), Keep(ps, u);
    var k1 :| 0 <= k1 < 4 && Overlap(raw + u, ps[k1], long);
    var k2 :| 0 <= k2 < 4 && Overlap(u, ps[k2], short);
    OverlapShift(raw, u, ps[k1], long);
    OverlapShift(raw, u, ps[k2], short);
  }

  // Bytes in which no marker starts, not even one still incomplete, pass straight through.
  lemma {:induction false} PassThrough(ps: seq<Bytes>, d: Decoders, raw: Bytes, u: Bytes, authorized: bool)
    requires ValidPrefixes(ps) && Separated(ps)
    requires forall j, kind | 0 <= j < |raw| && 0 <= kind < 4 :: !At(raw + u, j, ps[kind])
    requires forall k, kind | k > |u| && 0 <= kind < 4 :: !Overlap(raw + u, ps[kind], k)
    ensures Same(Parse(ps, d, raw + u, authorized), Prepend(Plain(raw), Parse(ps, d, u, authorized)))
  {
    NextMarkerShift(ps, raw, u);
    if NextMarker(ps, u).None? {
      KeepShift(ps, raw, u);
      PassToEnd(ps, d, raw, u, authorized);
    } else {
      PassToMarker(ps, d, raw, u, authorized);
    }
  }

  lemma PassToEnd(ps: seq<Bytes>, d: Decoders, raw: Bytes, u: Bytes, authorized: bool)
    requires ValidPrefixes(ps) && NextMarker(ps, u) == None && NextMarker(ps, raw + u) == None
    requires Keep(ps, raw + u) == Keep(ps, u)
    ensures Same(Parse(ps, d, raw + u, authorized), Prepend(Plain(raw), Parse(ps, d, u, authorized)))
  {
    hide Parse, ParseAtMarker;
    NoMarkerLeft(ps, d, u, authorized);
    NoMarkerLeft(ps, d, raw + u, authorized);
    PlainShift(raw, u, |u| - Keep(ps, u), authorized, Parse(ps, d, raw + u, authorized), Parse(ps, d, u, authorized));
  }

  lemma PlainShift(raw: Bytes, u: Bytes, n: nat, authorized: bool, whole: Parsed, part: Parsed)
    requires n <= |u| && part == Parsed(Plain(u[..n]), u[n..], authorized)
    requires whole == Parsed(Plain((raw + u)[..|raw| + n]), (raw + u)[|raw| + n..], authorized)
    ensures Same(whole, Prepend(Plain(raw), part))
  {
    ShiftedSlices(raw, u, n);
    PlainAtoms(raw, u[..n]);
  }

  lemma {:induction false} PassToMarker(ps: seq<Bytes>, d: Decoders, raw: Bytes, u: Bytes, authorized: bool)
    requires ValidPrefixes(ps) && NextMarker(ps, u).Some?
    requires NextMarker(ps, raw + u)
             == Some(Hit(|raw| + NextMarker(ps, u).value.start, NextMarker(ps, u).value.kind))
    ensures Same(Parse(ps, d, raw + u, authorized), Prepend(Plain(raw), Parse(ps, d, u, authorized)))
  {
    hide Parse, ParseAtMarker;
    var hit := NextMarker(ps, u).value;
    var before, after := u[..hit.start], u[hit.start..];
    ShiftedSlices(raw, u, hit.start);
    MarkerAheadAt(ps, d, u, hit.start, before, after, hit.kind, authorized);
    MarkerAheadAt(ps, d, raw + u, |raw| + hit.start, raw + before, after, hit.kind, authorized);
    JoinParsed(raw, before, ParseAtMarker(ps, d, after, hit.kind, authorized),
               Parse(ps, d, raw + u, authorized), Parse(ps, d, u, authorized));
  }

  lemma ShiftedSlices(raw: Bytes, u: Bytes, i: nat)
    requires i <= |u|
    ensures (raw + u)[..|raw| + i] == raw + u[..i] && (raw + u)[|raw| + i..] == u[i..]
  {
  }

  lemma JoinParsed(raw: Bytes, before: Bytes, tail: Parsed, whole: Parsed, part: Parsed)
    requires whole == Prepend(Plain(raw + before), tail) && part == Prepend(Plain(before), tail)
    ensures Same(whole, Prepend(Plain(raw), part))
  {
    PlainJoin(raw, before, tail);
  }

  lemma MarkerAheadAt(ps: seq<Bytes>, d: Decoders, s: Bytes, i: nat, before: Bytes, after: Bytes, kind: nat, authorized: bool)
    requires ValidPrefixes(ps) && NextMarker(ps, s) == Some(Hit(i, kind))
    requires before == s[..i] && after == s[i..]
    ensures At(after, 0, ps[kind])
    ensures Parse(ps, d, s, authorized) == Prepend(Plain(before), ParseAtMarker(ps, d, after, kind, authorized))
  {
    MarkerAhead(ps, d, s, authorized);
  }

  lemma PlainJoin(a: Bytes, b: Bytes, tail: Parsed)
    ensures Same(Prepend(Plain(a + b), tail), Prepend(Plain(a), Prepend(Plain(b), tail)))
  {
    PlainAtoms(a, b);
    PrependTwice(Plain(a), Plain(b), tail);
    AtomsConcat(Plain(a) + Plain(b), tail.tokens);
    AtomsConcat(Plain(a + b), tail.tokens);
  }

  // What is left over can be parsed again together with whatever comes next.
  ghost predicate Resumes(ps: seq<Bytes>, d: Decoders, first: Parsed, whole: Parsed, t: Bytes)
    requires ValidPrefixes(ps)
  {
    Same(whole, Prepend(first.tokens, Parse(ps, d, first.rest + t, first.authorized)))
  }

  lemma {:induction false} ResumesPrepend(ps: seq<Bytes>, d: Decoders, tokens: seq<Token>, first: Parsed, whole: Parsed, t: Bytes)
    requires ValidPrefixes(ps) && Resumes(ps, d, first, whole, t)
    ensures Resumes(ps, d, Prepend(tokens, first), Prepend(tokens, whole), t)
  {
    var next := Parse(ps, d, first.rest + t, first.authorized);
    SamePrepend(tokens, whole, Prepend(first.tokens, next));
    PrependTwice(tokens, first.tokens, next);
  }

  lemma FindByteStable(s: Bytes, t: Bytes, from: nat)
    requires Find(s, [BEL], from).Some?
    ensures Find(s + t, [BEL], from) == Find(s, [BEL], from)
  {
    var end := Find(s, [BEL], from).value;
    AtExtends(s, t, end, [BEL]);
    var other := Find(s + t, [BEL], from).value;
    AtExtends(s, t, other, [BEL]);
  }

  // A marker whose terminator has not arrived yet waits, from its first byte.
  lemma {:induction false} WaitingMarker(ps: seq<Bytes>, d: Decoders, s: Bytes, t: Bytes, kind: nat, authorized: bool)
    requires ValidPrefixes(ps) && Separated(ps) && kind < 4 && kind != SLOT
    requires At(s, 0, ps[kind]) && At(s + t, 0, ps[kind]) && Find(s, [BEL], |ps[kind]|).None?
    ensures Resumes(ps, d, ParseAtMarker(ps, d, s, kind, authorized), ParseAtMarker(ps, d, s + t, kind, authorized), t)
  {
    NextMarkerAtStart(ps, s + t, kind);
    var whole := ParseAtMarker(ps, d, s + t, kind, authorized);
    assert [] + whole.tokens == whole.tokens;
  }

  lemma {:induction false} ResumeAtMarker(ps: seq<Bytes>, d: Decoders, s: Bytes, t: Bytes, kind: nat, authorized: bool)
    requires ValidPrefixes(ps) && Separated(ps) && kind < 4 && At(s, 0, ps[kind]) && At(s + t, 0, ps[kind])
    ensures Resumes(ps, d, ParseAtMarker(ps, d, s, kind, authorized), ParseAtMarker(ps, d, s + t, kind, authorized), t)
    decreases |s|, 0
  {
    var n := |ps[kind]|;
    if kind == SLOT {
      var tail := s[n..];
      assert (s + t)[n..] == tail + t;
      AtSlot(ps, d, s, authorized);
      AtSlot(ps, d, s + t, authorized);
      Resume(ps, d, tail, t, false);
      ResumesPrepend(ps, d, [SlotToken(ps, authorized)], Parse(ps, d, tail, false), Parse(ps, d, tail + t, false), t);
    } else if Find(s, [BEL], n).None? {
      WaitingMarker(ps, d, s, t, kind, authorized);
    } else {
      var end := Find(s, [BEL], n).value;
      FindByteStable(s, t, n);
      assert (s + t)[n..end] == s[n..end];
      var token := MarkerToken(ps, d, kind, s[n..end]);
      var after := Authorize(token.event, authorized);
      var tail := s[end + 1..];
      assert (s + t)[end + 1..] == tail + t;
      AtTerminatedMarker(ps, d, s, kind, end, authorized);
      AtTerminatedMarker(ps, d, s + t, kind, end, authorized);
      Resume(ps, d, tail, t, after);
      ResumesPrepend(ps, d, [token], Parse(ps, d, tail, after), Parse(ps, d, tail + t, after), t);
    }
  }

  lemma NothingStartsInPlain(ps: seq<Bytes>, s: Bytes, t: Bytes)
    requires ValidPrefixes(ps) && NextMarker(ps, s).None?
    ensures forall j, kind | 0 <= j < |s| - Keep(ps, s) && 0 <= kind < 4 :: !At(s + t, j, ps[kind])
    ensures forall k, kind | k > Keep(ps, s) + |t| && 0 <= kind < 4 :: !Overlap(s + t, ps[kind], k)
  {
    forall j, kind | 0 <= j < |s| - Keep(ps, s) && 0 <= kind < 4
      ensures !At(s + t, j, ps[kind])
    {
      var p := ps[kind];
      AtExtends(s, t, j, p);
      assert !At(s, j, ps[kind]);
      if At(s + t, j, ps[kind]) {
        var k := |s| - j;
        assert p == (s + t)[j..j + |p|];
        assert s[j..] == p[..k];
        assert Overlap(s, p, k);
      }
    }
    forall k, kind | k > Keep(ps, s) + |t| && 0 <= kind < 4
      ensures !Overlap(s + t, ps[kind], k)
    {
      var p := ps[kind];
      if Overlap(s + t, p, k) {
        var j := |s| + |t| - k;
        assert s[j..] == (s + t)[j..][..|s| - j] == p[..|s| - j];
        assert Overlap(s, p, |s| - j);
      }
    }
  }

  lemma {:induction false} Resume(ps: seq<Bytes>, d: Decoders, s: Bytes, t: Bytes, authorized: bool)
    requires ValidPrefixes(ps) && Separated(ps)
    ensures Resumes(ps, d, Parse(ps, d, s, authorized), Parse(ps, d, s + t, authorized), t)
    decreases |s|, 1
  {
    hide Parse, ParseAtMarker;
    if NextMarker(ps, s).None? {
      NothingStartsInPlain(ps, s, t);
      ResumeInPlain(ps, d, s, t, authorized);
    } else {
      var hit := NextMarker(ps, s).value;
      MarkerAhead(ps, d, s, authorized);
      AtExtends(s[hit.start..], t, 0, ps[hit.kind]);
      ResumeAtMarker(ps, d, s[hit.start..], t, hit.kind, authorized);
      ResumeBeforeMarker(ps, d, s, t, hit.start, hit.kind, authorized);
    }
  }

  lemma ResumeInPlain(ps: seq<Bytes>, d: Decoders, s: Bytes, t: Bytes, authorized: bool)
    requires ValidPrefixes(ps) && Separated(ps) && NextMarker(ps, s) == None
    requires forall j, kind | 0 <= j < |s| - Keep(ps, s) && 0 <= kind < 4 :: !At(s + t, j, ps[kind])
    requires forall k, kind | k > Keep(ps, s) + |t| && 0 <= kind < 4 :: !Overlap(s + t, ps[kind], k)
    ensures Resumes(ps, d, Parse(ps, d, s, authorized), Parse(ps, d, s + t, authorized), t)
  {
    hide Parse, ParseAtMarker;
    var n := |s| - Keep(ps, s);
    NoMarkerLeft(ps, d, s, authorized);
    assert s[..n] + (s[n..] + t) == s + t;
    PassThrough(ps, d, s[..n], s[n..] + t, authorized);
  }

  lemma ResumeBeforeMarker(ps: seq<Bytes>, d: Decoders, s: Bytes, t: Bytes, i: nat, kind: nat, authorized: bool)
    requires ValidPrefixes(ps) && Separated(ps) && NextMarker(ps, s) == Some(Hit(i, kind)) && i <= |s| && kind < 4
    requires At(s[i..], 0, ps[kind]) && At(s[i..] + t, 0, ps[kind])
    requires Resumes(ps, d, ParseAtMarker(ps, d, s[i..], kind, authorized), ParseAtMarker(ps, d, s[i..] + t, kind, authorized), t)
    ensures Resumes(ps, d, Parse(ps, d, s, authorized), Parse(ps, d, s + t, authorized), t)
  {
    hide Parse, ParseAtMarker;
    NextMarkerStable(ps, s, t);
    assert (s + t)[i..] == s[i..] + t && (s + t)[..i] == s[..i];
    MarkerAheadAt(ps, d, s, i, s[..i], s[i..], kind, authorized);
    MarkerAheadAt(ps, d, s + t, i, s[..i], s[i..] + t, kind, authorized);
    ResumesPrepend(ps, d, Plain(s[..i]), ParseAtMarker(ps, d, s[i..], kind, authorized),
                   ParseAtMarker(ps, d, s[i..] + t, kind, authorized), t);
  }

  // ---------------------------------------------------------------- chunk independence

  function Concat(chunks: seq<Bytes>): Bytes {
    if chunks == [] then [] else chunks[0] + Concat(chunks[1..])
  }

  // A parser fed one chunk after another, starting from what it holds back.
  function Run(ps: seq<Bytes>, d: Decoders, held: Bytes, authorized: bool, chunks: seq<Bytes>): Parsed
    requires ValidPrefixes(ps)
    decreases |chunks|
  {
    if chunks == [] then Parsed([], held, authorized)
    else
      var first := Parse(ps, d, held + chunks[0], authorized);
      Prepend(first.tokens, Run(ps, d, first.rest, first.authorized, chunks[1..]))
  }

  ghost predicate ChunkIndependent(ps: seq<Bytes>, d: Decoders)
    requires ValidPrefixes(ps)
  {
    forall authorized: bool, chunks: seq<Bytes> | chunks != [] ::
      Same(Run(ps, d, [], authorized, chunks), Parse(ps, d, Concat(chunks), authorized))
  }

  lemma {:induction false} RunIsParse(ps: seq<Bytes>, d: Decoders, held: Bytes, authorized: bool, chunks: seq<Bytes>)
    requires ValidPrefixes(ps) && Separated(ps) && chunks != []
    ensures Same(Run(ps, d, held, authorized, chunks), Parse(ps, d, held + Concat(chunks), authorized))
    decreases |chunks|
  {
    var s, tail := held + chunks[0], Concat(chunks[1..]);
    var first := Parse(ps, d, s, authorized);
    assert held + Concat(chunks) == s + tail;
    if |chunks| == 1 {
      assert s + tail == s;
      assert first.tokens + [] == first.tokens;
    } else {
      Resume(ps, d, s, tail, authorized);
      RunIsParse(ps, d, first.rest, first.authorized, chunks[1..]);
      var rest := Run(ps, d, first.rest, first.authorized, chunks[1..]);
      SamePrepend(first.tokens, rest, Parse(ps, d, first.rest + tail, first.authorized));
    }
  }

  lemma RunEmitsAtOnce(ps: seq<Bytes>, d: Decoders, authorized: bool, a: Bytes, b: Bytes)
    requires ValidPrefixes(ps)
    ensures |Atoms(Run(ps, d, [], authorized, [a, b]).tokens)| >= |Atoms(Parse(ps, d, a, authorized).tokens)|
    ensures Concat([a, b]) == a + b
  {
    assert [] + a == a;
    assert [a, b][1..] == [b];
    assert Concat([b]) == b;
    var first := Parse(ps, d, a, authorized);
    AtomsConcat(first.tokens, Run(ps, d, first.rest, first.authorized, [b]).tokens);
  }

  lemma SlotInCut(nonce: Bytes, digest: Bytes, cut: Bytes)
    requires HexDigest(digest) && SlotInNonce(nonce, digest) && cut == COMMAND_DONE_HEAD + nonce
    ensures exists i :: At(cut, i, SlotSentinel(digest))
  {
    var slot := SlotSentinel(digest);
    var i :| At(nonce, i, slot);
    var j := |COMMAND_DONE_HEAD| + i;
    assert cut[j..j + |slot|] == slot;
    assert At(cut, j, slot);
  }

  // With the sentinel in the nonce, holding the first marker's last byte back changes the result.
  lemma {:induction false} SlotInNonceBreaksChunking(nonce: Bytes, digest: Bytes, d: Decoders)
    requires HexDigest(digest) && SlotInNonce(nonce, digest)
    ensures !ChunkIndependent(Prefixes(nonce, digest), d)
  {
    hide Parse, ParseAtMarker, Run, Concat;
    var ps, cut: Bytes := Prefixes(nonce, digest), COMMAND_DONE_HEAD + nonce;
    SlotInCut(nonce, digest, cut);
    SomethingIsEmitted(nonce, digest, d, cut);
    WholeMarkerWaits(nonce, digest, d);
    RunEmitsAtOnce(ps, d, false, cut, ";");
    assert ps[COMMAND_DONE] == cut + ";";
    NotIndependent(ps, d, false, [cut, ";"]);
  }

  lemma NotIndependent(ps: seq<Bytes>, d: Decoders, authorized: bool, chunks: seq<Bytes>)
    requires ValidPrefixes(ps) && chunks != []
    requires Atoms(Run(ps, d, [], authorized, chunks).tokens) != Atoms(Parse(ps, d, Concat(chunks), authorized).tokens)
    ensures !ChunkIndependent(ps, d)
  {
    assert !Same(Run(ps, d, [], authorized, chunks), Parse(ps, d, Concat(chunks), authorized));
  }

  // No prefix but its own begins a marker.
  lemma BeginsOnlyItself(nonce: Bytes, digest: Bytes, kind: nat)
    requires HexDigest(digest) && kind < 4
    ensures At(Prefixes(nonce, digest)[COMMAND_DONE], 0, Prefixes(nonce, digest)[kind]) ==> kind == COMMAND_DONE
  {
    var ps := Prefixes(nonce, digest);
    if At(ps[COMMAND_DONE], 0, ps[kind]) {
      if kind < 3 {
        EscMarkerInside(nonce, digest, COMMAND_DONE, 0, kind);
      } else {
        SlotBytes(digest, 0);
        SlotInside(nonce, digest, COMMAND_DONE, 0);
      }
    }
  }

  lemma NothingBeginsTheCut(nonce: Bytes, digest: Bytes, cut: Bytes, kind: nat)
    requires HexDigest(digest) && cut == COMMAND_DONE_HEAD + nonce && kind < 4
    ensures !At(cut, 0, Prefixes(nonce, digest)[kind])
  {
    var ps := Prefixes(nonce, digest);
    BeginsOnlyItself(nonce, digest, kind);
    assert ps[COMMAND_DONE] == cut + ";";
    AtExtends(cut, ";", 0, ps[kind]);
  }

  // The unfinished marker is not recognised, so the sentinel behind its head is.
  lemma {:induction false} SomethingIsEmitted(nonce: Bytes, digest: Bytes, d: Decoders, cut: Bytes)
    requires HexDigest(digest) && cut == COMMAND_DONE_HEAD + nonce
    requires exists i :: At(cut, i, SlotSentinel(digest))
    ensures Atoms(Parse(Prefixes(nonce, digest), d, cut, false).tokens) != []
  {
    var ps := Prefixes(nonce, digest);
    var i :| At(cut, i, ps[SLOT]);
    var hit := NextMarker(ps, cut).value;
    NothingBeginsTheCut(nonce, digest, cut, hit.kind);
    var tail := ParseAtMarker(ps, d, cut[hit.start..], hit.kind, false) by {
      assert cut[hit.start..][0..|ps[hit.kind]|] == cut[hit.start..hit.start + |ps[hit.kind]|];
    }
    MarkerAhead(ps, d, cut, false);
    AtomsConcat(Plain(cut[..hit.start]), tail.tokens);
    PlainAtoms(cut[..hit.start], []);
  }

  lemma WholeMarkerWaits(nonce: Bytes, digest: Bytes, d: Decoders)
    requires HexDigest(digest)
    ensures var marker := Prefixes(nonce, digest)[COMMAND_DONE];
            Parse(Prefixes(nonce, digest), d, marker, false) == Parsed([], marker, false)
  {
    var ps := Prefixes(nonce, digest);
    var marker := ps[COMMAND_DONE];
    assert At(marker, 0, marker);
    var hit := NextMarker(ps, marker).value;
    if hit.kind < 3 {
      EscMarkerInside(nonce, digest, COMMAND_DONE, 0, hit.kind);
    } else {
      SlotInside(nonce, digest, COMMAND_DONE, 0);
    }
  }

  // Every chunking of every stream parses alike exactly when the slot sentinel is not in the nonce.
  lemma ChunkIndependence(nonce: Bytes, digest: Bytes, d: Decoders)
    requires HexDigest(digest)
    ensures ChunkIndependent(Prefixes(nonce, digest), d) <==> !SlotInNonce(nonce, digest)
  {
    var ps := Prefixes(nonce, digest);
    SeparatedIffSlotNotInNonce(nonce, digest);
    if SlotInNonce(nonce, digest) {
      SlotInNonceBreaksChunking(nonce, digest, d);
    } else {
      forall authorized: bool, chunks: seq<Bytes> | chunks != []
        ensures Same(Run(ps, d, [], authorized, chunks), Parse(ps, d, Concat(chunks), authorized))
      {
        RunIsParse(ps, d, [], authorized, chunks);
        assert [] + Concat(chunks) == Concat(chunks);
      }
    }
  }

  // ---------------------------------------------------------------- conservation and authorization

  function Raws(tokens: seq<Token>): Bytes {
    if tokens == [] then [] else tokens[0].raw + Raws(tokens[1..])
  }

  lemma {:induction false} RawsConcat(a: seq<Token>, b: seq<Token>)
    ensures Raws(a + b) == Raws(a) + Raws(b)
  {
    if a == [] {
      assert a + b == b;
    } else {
      assert (a + b)[1..] == a[1..] + b;
      RawsConcat(a[1..], b);
    }
  }

  // The authorization bit after a sequence of events.
  function Authorization(tokens: seq<Token>, authorized: bool): bool {
    if tokens == [] then authorized
    else Authorize(tokens[|tokens| - 1].event, Authorization(tokens[..|tokens| - 1], authorized))
  }

  lemma {:induction false} AuthorizationConcat(a: seq<Token>, b: seq<Token>, authorized: bool)
    ensures Authorization(a + b, authorized) == Authorization(b, Authorization(a, authorized))
    decreases |b|
  {
    if b == [] {
      assert a + b == a;
    } else {
      assert (a + b)[..|a + b| - 1] == a + b[..|b| - 1];
      AuthorizationConcat(a, b[..|b| - 1], authorized);
    }
  }

  // A marker of this kind with this payload stands for nothing.
  predicate Refused(d: Decoders, kind: nat, payload: Bytes) {
    if kind == COMMAND_DONE then d.status(payload).None?
    else if kind == CONNECT then d.connect(payload).None?
    else payload != ";enter" && payload != ";managed"
  }

  predicate HasBel(s: Bytes) {
    exists i | 0 <= i < |s| :: s[i] == BEL
  }

  // A whole marker that stands for nothing.
  ghost predicate RefusedMarker(ps: seq<Bytes>, d: Decoders, data: Bytes)
    requires ValidPrefixes(ps)
  {
    exists kind: nat, payload: Bytes ::
      kind < SLOT && data == ps[kind] + payload + [BEL] && !HasBel(payload) && Refused(d, kind, payload)
  }

  // No marker begins anywhere in it.
  ghost predicate Markerless(ps: seq<Bytes>, data: Bytes)
    requires ValidPrefixes(ps)
  {
    forall i, k | 0 <= k < 4 :: !At(data, i, ps[k])
  }

  // What an event says about the bytes it came from, given the authorization bit before it.
  ghost predicate TokenMeaning(ps: seq<Bytes>, d: Decoders, token: Token, authorized: bool)
    requires ValidPrefixes(ps)
  {
    && (token.raw == ps[SLOT] <==> token.event == PromptSlotEvent || token.event == BytesEvent(ps[SLOT]))
    && (token.raw == ps[SLOT] ==> (token.event.PromptSlotEvent? <==> authorized))
    && match token.event
       case BytesEvent(data) =>
         data == token.raw && data != [] && (data == ps[SLOT] || RefusedMarker(ps, d, data) || Markerless(ps, data))
       case PromptSlotEvent => true
       case PromptEvent(slot) => token.raw == ps[PROMPT] + (if slot then ";managed" else ";enter") + [BEL]
       case BarrierEvent(n) =>
         exists payload :: token.raw == ps[COMMAND_DONE] + payload + [BEL] && d.status(payload) == Some(n)
       case ConnectRequestEvent(c) =>
         exists payload :: token.raw == ps[CONNECT] + payload + [BEL] && d.connect(payload) == Some(c)
  }

  ghost predicate Faithful(ps: seq<Bytes>, d: Decoders, tokens: seq<Token>, authorized: bool)
    requires ValidPrefixes(ps)
  {
    forall k | 0 <= k < |tokens| :: TokenMeaning(ps, d, tokens[k], Authorization(tokens[..k], authorized))
  }

  lemma FaithfulConcat(ps: seq<Bytes>, d: Decoders, a: seq<Token>, b: seq<Token>, authorized: bool)
    requires ValidPrefixes(ps)
    requires Faithful(ps, d, a, authorized) && Faithful(ps, d, b, Authorization(a, authorized))
    ensures Faithful(ps, d, a + b, authorized)
  {
    var all := a + b;
    forall k | 0 <= k < |all|
      ensures TokenMeaning(ps, d, all[k], Authorization(all[..k], authorized))
    {
      if k < |a| {
        assert all[..k] == a[..k];
      } else {
        assert all[..k] == a + b[..k - |a|];
        AuthorizationConcat(a, b[..k - |a|], authorized);
      }
    }
  }

  // A parse that accounts for every byte of `s` and for the authorization bit.
  ghost predicate Accounts(ps: seq<Bytes>, d: Decoders, s: Bytes, authorized: bool, p: Parsed)
    requires ValidPrefixes(ps)
  {
    && Raws(p.tokens) + p.rest == s
    && p.authorized == Authorization(p.tokens, authorized)
    && Faithful(ps, d, p.tokens, authorized)
  }

  lemma AccountsPrepend(ps: seq<Bytes>, d: Decoders, s: Bytes, tokens: seq<Token>, authorized: bool, u: Bytes, p: Parsed)
    requires ValidPrefixes(ps) && s == Raws(tokens) + u && Faithful(ps, d, tokens, authorized)
    requires Accounts(ps, d, u, Authorization(tokens, authorized), p)
    ensures Accounts(ps, d, s, authorized, Prepend(tokens, p))
  {
    assert Raws(tokens + p.tokens) + p.rest == s by { RawsConcat(tokens, p.tokens); }
    assert p.authorized == Authorization(tokens + p.tokens, authorized) by {
      AuthorizationConcat(tokens, p.tokens, authorized);
    }
    assert Faithful(ps, d, tokens + p.tokens, authorized) by {
      FaithfulConcat(ps, d, tokens, p.tokens, authorized);
    }
  }

  lemma OneToken(ps: seq<Bytes>, d: Decoders, token: Token, authorized: bool)
    requires ValidPrefixes(ps) && TokenMeaning(ps, d, token, authorized)
    ensures Faithful(ps, d, [token], authorized)
    ensures Raws([token]) == token.raw
    ensures Authorization([token], authorized) == Authorize(token.event, authorized)
  {
    assert [token][..0] == [];
    assert token.raw + [] == token.raw;
  }

  // No marker begins like another one.
  ghost predicate Distinguished(ps: seq<Bytes>)
    requires ValidPrefixes(ps)
  {
    forall j, k | 0 <= j < 4 && 0 <= k < 4 && j != k :: !At(ps[j], 0, ps[k])
  }

  lemma PrefixesAreDistinguished(nonce: Bytes, digest: Bytes)
    requires HexDigest(digest)
    ensures Distinguished(Prefixes(nonce, digest))
  {
    var ps := Prefixes(nonce, digest);
    forall j, k | 0 <= j < 4 && 0 <= k < 4 && j != k
      ensures !At(ps[j], 0, ps[k])
    {
      if At(ps[j], 0, ps[k]) {
        if j < 3 && k < 3 {
          EscMarkerInside(nonce, digest, j, 0, k);
        } else if j < 3 {
          HeadBytes(j, 0);
          SlotInside(nonce, digest, j, 0);
        } else {
          EscMarkerInSlot(nonce, digest, 0, k);
        }
      }
    }
  }

  // Of two prefixes of one text the shorter begins the longer.
  lemma ShorterBegins(ps: seq<Bytes>, s: Bytes, j: nat, k: nat)
    requires ValidPrefixes(ps) && j < 4 && k < 4 && At(s, 0, ps[j]) && At(s, 0, ps[k])
    ensures At(ps[j], 0, ps[k]) || At(ps[k], 0, ps[j])
  {
    if |ps[j]| <= |ps[k]| {
      assert ps[k][0..0 + |ps[j]|] == s[0..0 + |ps[k]|][0..|ps[j]|] == ps[j];
    } else {
      assert ps[j][0..0 + |ps[k]|] == s[0..0 + |ps[j]|][0..|ps[k]|] == ps[k];
    }
  }

  lemma BeginsWithPrefix(ps: seq<Bytes>, kind: nat, payload: Bytes)
    requires ValidPrefixes(ps) && kind < SLOT
    ensures At(ps[kind] + payload + [BEL], 0, ps[kind])
  {
    var data := ps[kind] + payload + [BEL];
    assert data[0..0 + |ps[kind]|] == ps[kind];
  }

  // A whole marker is no slot sentinel, and its kind and payload are determined.
  lemma MarkerIsUnique(ps: seq<Bytes>, j: nat, a: Bytes, k: nat, b: Bytes)
    requires ValidPrefixes(ps) && Distinguished(ps) && j < SLOT && k < SLOT
    requires ps[j] + a + [BEL] == ps[k] + b + [BEL]
    ensures j == k && a == b
  {
    var data := ps[j] + a + [BEL];
    BeginsWithPrefix(ps, j, a);
    BeginsWithPrefix(ps, k, b);
    ShorterBegins(ps, data, j, k);
    assert a == data[|ps[j]|..|data| - 1] && b == data[|ps[k]|..|data| - 1];
  }

  lemma MarkerIsNoSlot(ps: seq<Bytes>, kind: nat, payload: Bytes)
    requires ValidPrefixes(ps) && Distinguished(ps) && kind < SLOT
    ensures ps[kind] + payload + [BEL] != ps[SLOT]
  {
    BeginsWithPrefix(ps, kind, payload);
  }

  // In plain output a whole marker is one that stands for nothing: whatever has a meaning is an event.
  lemma WholeMarkerIsRefused(ps: seq<Bytes>, d: Decoders, data: Bytes, authorized: bool, kind: nat, payload: Bytes)
    requires ValidPrefixes(ps) && Distinguished(ps) && kind < SLOT
    requires TokenMeaning(ps, d, Token(data, BytesEvent(data)), authorized)
    requires data == ps[kind] + payload + [BEL]
    ensures kind == COMMAND_DONE ==> d.status(payload).None?
    ensures kind == CONNECT ==> d.connect(payload).None?
    ensures kind == PROMPT ==> payload != ";enter" && payload != ";managed"
  {
    BeginsWithPrefix(ps, kind, payload);
    MarkerIsNoSlot(ps, kind, payload);
    var k: nat, other: Bytes :| k < SLOT && data == ps[k] + other + [BEL] && !HasBel(other) && Refused(d, k, other);
    MarkerIsUnique(ps, kind, payload, k, other);
  }

  lemma MarkerTokenMeaning(ps: seq<Bytes>, d: Decoders, kind: nat, payload: Bytes, authorized: bool)
    requires ValidPrefixes(ps) && Distinguished(ps) && kind < SLOT && !HasBel(payload)
    ensures TokenMeaning(ps, d, MarkerToken(ps, d, kind, payload), authorized)
  {
    MarkerIsNoSlot(ps, kind, payload);
    if ParseMarker(d, kind, payload).None? {
      assert Refused(d, kind, payload);
      assert RefusedMarker(ps, d, ps[kind] + payload + [BEL]);
    }
  }

  lemma PayloadEndsAtBel(s: Bytes, n: nat, end: nat)
    requires Find(s, [BEL], n) == Some(end)
    ensures n <= end < |s| && !HasBel(s[n..end])
  {
    forall i | 0 <= i < |s[n..end]|
      ensures s[n..end][i] != BEL
    {
      assert s[n + i..n + i + 1] == [s[n..end][i]];
      assert !At(s, n + i, [BEL]);
    }
  }

  lemma {:induction false} AtMarkerAccounts(ps: seq<Bytes>, d: Decoders, s: Bytes, kind: nat, authorized: bool)
    requires ValidPrefixes(ps) && Distinguished(ps) && kind < 4 && At(s, 0, ps[kind])
    ensures Accounts(ps, d, s, authorized, ParseAtMarker(ps, d, s, kind, authorized))
    decreases |s|, 0
  {
    hide Parse, ParseAtMarker, Accounts, Faithful, Distinguished, Raws, Authorization, TokenMeaning;
    var n := |ps[kind]|;
    assert s == ps[kind] + s[n..];
    if kind == SLOT {
      ParseAccounts(ps, d, s[n..], false);
      AtSlot(ps, d, s, authorized);
      SlotTokenMeaning(ps, d, authorized);
      OneToken(ps, d, SlotToken(ps, authorized), authorized);
      AccountsPrepend(ps, d, s, [SlotToken(ps, authorized)], authorized, s[n..], Parse(ps, d, s[n..], false));
    } else if Find(s, [BEL], n).Some? {
      var end := Find(s, [BEL], n).value;
      var token := MarkerToken(ps, d, kind, s[n..end]);
      PayloadEndsAtBel(s, n, end);
      MarkerBytes(s, n, end);
      assert s == s[..end + 1] + s[end + 1..] == token.raw + s[end + 1..];
      AtTerminatedMarker(ps, d, s, kind, end, authorized);
      MarkerTokenMeaning(ps, d, kind, s[n..end], authorized);
      OneToken(ps, d, token, authorized);
      var after := Authorize(token.event, authorized);
      ParseAccounts(ps, d, s[end + 1..], after);
      AccountsPrepend(ps, d, s, [token], authorized, s[end + 1..], Parse(ps, d, s[end + 1..], after));
    } else {
      AtOpenMarker(ps, d, s, kind, authorized);
      NothingAccounts(ps, d, s, authorized);
    }
  }

  lemma SlotTokenMeaning(ps: seq<Bytes>, d: Decoders, authorized: bool)
    requires ValidPrefixes(ps)
    ensures TokenMeaning(ps, d, SlotToken(ps, authorized), authorized)
  {
  }

  lemma NothingAccounts(ps: seq<Bytes>, d: Decoders, s: Bytes, authorized: bool)
    requires ValidPrefixes(ps)
    ensures Accounts(ps, d, s, authorized, Parsed([], s, authorized))
  {
    assert Raws([]) + s == s;
  }

  // Plain bytes in front of which no marker begins hold none.
  lemma FrontIsMarkerless(ps: seq<Bytes>, s: Bytes, n: nat)
    requires ValidPrefixes(ps) && n <= |s| && forall i, k | 0 <= i < n && 0 <= k < 4 :: !At(s, i, ps[k])
    ensures Markerless(ps, s[..n])
  {
    forall i, k | 0 <= k < 4
      ensures !At(s[..n], i, ps[k])
    {
      assert 0 <= i && i + |ps[k]| <= n ==> s[i..i + |ps[k]|] == s[..n][i..i + |ps[k]|];
      assert ps[k] in ps && |ps[k]| > 0;
      assert 0 <= i < n ==> !At(s, i, ps[k]);
    }
  }

  lemma PlainFaithful(ps: seq<Bytes>, d: Decoders, s: Bytes, n: nat, authorized: bool)
    requires ValidPrefixes(ps) && n <= |s| && forall i, k | 0 <= i < n && 0 <= k < 4 :: !At(s, i, ps[k])
    ensures Faithful(ps, d, Plain(s[..n]), authorized)
    ensures Raws(Plain(s[..n])) == s[..n] && Authorization(Plain(s[..n]), authorized) == authorized
  {
    if n > 0 {
      FrontIsMarkerless(ps, s, n);
      assert !At(s[..n], 0, ps[SLOT]);
      assert s[..n][0..|s[..n]|] == s[..n];
      OneToken(ps, d, Token(s[..n], BytesEvent(s[..n])), authorized);
    }
  }

  lemma PlainAccounts(ps: seq<Bytes>, d: Decoders, s: Bytes, n: nat, authorized: bool)
    requires ValidPrefixes(ps) && n <= |s| && forall i, k | 0 <= i < n && 0 <= k < 4 :: !At(s, i, ps[k])
    ensures Accounts(ps, d, s, authorized, Parsed(Plain(s[..n]), s[n..], authorized))
  {
    PlainFaithful(ps, d, s, n, authorized);
    assert s == s[..n] + s[n..];
  }

  lemma {:induction false} ParseAccounts(ps: seq<Bytes>, d: Decoders, s: Bytes, authorized: bool)
    requires ValidPrefixes(ps) && Distinguished(ps)
    ensures Accounts(ps, d, s, authorized, Parse(ps, d, s, authorized))
    decreases |s|, 1
  {
    hide Parse, ParseAtMarker, Accounts, Faithful, Distinguished, Raws, Authorization;
    if NextMarker(ps, s).None? {
      NoMarkerLeft(ps, d, s, authorized);
      PlainAccounts(ps, d, s, |s| - Keep(ps, s), authorized);
    } else {
      var hit := NextMarker(ps, s).value;
      var i := hit.start;
      MarkerAhead(ps, d, s, authorized);
      PlainFaithful(ps, d, s, i, authorized);
      AtMarkerAccounts(ps, d, s[i..], hit.kind, authorized);
      assert s == s[..i] + s[i..];
      AccountsPrepend(ps, d, s, Plain(s[..i]), authorized, s[i..],
                      ParseAtMarker(ps, d, s[i..], hit.kind, authorized));
    }
  }

  lemma ChunkSplit(held: Bytes, chunks: seq<Bytes>, raws: Bytes, rest: Bytes)
    requires chunks != [] && held + chunks[0] == raws + rest
    ensures held + Concat(chunks) == raws + (rest + Concat(chunks[1..]))
  {
    assert held + Concat(chunks) == (held + chunks[0]) + Concat(chunks[1..]);
  }

  lemma {:induction false} EveryRunAccounts(ps: seq<Bytes>, d: Decoders, held: Bytes, authorized: bool, chunks: seq<Bytes>)
    requires ValidPrefixes(ps) && Distinguished(ps)
    ensures Accounts(ps, d, held + Concat(chunks), authorized, Run(ps, d, held, authorized, chunks))
    decreases |chunks|
  {
    if chunks == [] {
      assert held + [] == held;
    } else {
      var s, tail := held + chunks[0], Concat(chunks[1..]);
      var first := Parse(ps, d, s, authorized);
      ParseAccounts(ps, d, s, authorized);
      var rest := Run(ps, d, first.rest, first.authorized, chunks[1..]);
      EveryRunAccounts(ps, d, first.rest, first.authorized, chunks[1..]);
      ChunkSplit(held, chunks, Raws(first.tokens), first.rest);
      AccountsPrepend(ps, d, held + Concat(chunks), first.tokens, authorized, first.rest + tail, rest);
    }
  }

  // What may be held back: the beginning of a marker, or a marker whose end has not been seen.
  ghost predicate HeldBack(ps: seq<Bytes>, rest: Bytes)
    requires ValidPrefixes(ps)
  {
    || (exists k | 0 <= k < 4 :: |rest| < |ps[k]| && rest == ps[k][..|rest|])
    || (exists k | 0 <= k < SLOT :: At(rest, 0, ps[k]) && !HasBel(rest[|ps[k]|..]))
  }

  lemma OpenMarkerIsHeld(ps: seq<Bytes>, s: Bytes, kind: nat)
    requires ValidPrefixes(ps) && kind < SLOT && At(s, 0, ps[kind]) && Find(s, [BEL], |ps[kind]|) == None
    ensures HeldBack(ps, s)
  {
    var n := |ps[kind]|;
    forall i | 0 <= i < |s[n..]|
      ensures s[n..][i] != BEL
    {
      var j := n + i;
      assert !At(s, j, [BEL]);
      assert s[j..j + 1] == [s[n..][i]];
    }
  }

  lemma OverlapIsHeld(ps: seq<Bytes>, s: Bytes)
    requires ValidPrefixes(ps)
    ensures HeldBack(ps, s[|s| - Keep(ps, s)..])
  {
    var k :| 0 <= k < 4 && Overlap(s, ps[k], Keep(ps, s));
    assert s[|s| - Keep(ps, s)..] == ps[k][..Keep(ps, s)];
  }

  lemma {:induction false} ParseHolds(ps: seq<Bytes>, d: Decoders, s: Bytes, authorized: bool)
    requires ValidPrefixes(ps)
    ensures HeldBack(ps, Parse(ps, d, s, authorized).rest)
    decreases |s|, 1
  {
    hide Parse, ParseAtMarker, HeldBack;
    if NextMarker(ps, s).None? {
      NoMarkerLeft(ps, d, s, authorized);
      OverlapIsHeld(ps, s);
    } else {
      var hit := NextMarker(ps, s).value;
      MarkerAhead(ps, d, s, authorized);
      MarkerHolds(ps, d, s[hit.start..], hit.kind, authorized);
    }
  }

  lemma {:induction false} MarkerHolds(ps: seq<Bytes>, d: Decoders, s: Bytes, kind: nat, authorized: bool)
    requires ValidPrefixes(ps) && kind < 4 && At(s, 0, ps[kind])
    ensures HeldBack(ps, ParseAtMarker(ps, d, s, kind, authorized).rest)
    decreases |s|, 0
  {
    hide Parse, ParseAtMarker, HeldBack;
    var n := |ps[kind]|;
    if kind == SLOT {
      AtSlot(ps, d, s, authorized);
      ParseHolds(ps, d, s[n..], false);
    } else if Find(s, [BEL], n).Some? {
      var end := Find(s, [BEL], n).value;
      AtTerminatedMarker(ps, d, s, kind, end, authorized);
      ParseHolds(ps, d, s[end + 1..], Authorize(MarkerToken(ps, d, kind, s[n..end]).event, authorized));
    } else {
      AtOpenMarker(ps, d, s, kind, authorized);
      OpenMarkerIsHeld(ps, s, kind);
    }
  }

  lemma {:induction false} RunHolds(ps: seq<Bytes>, d: Decoders, held: Bytes, authorized: bool, chunks: seq<Bytes>)
    requires ValidPrefixes(ps) && chunks != []
    ensures HeldBack(ps, Run(ps, d, held, authorized, chunks).rest)
    decreases |chunks|
  {
    hide Parse, HeldBack;
    var first := Parse(ps, d, held + chunks[0], authorized);
    if |chunks| == 1 {
      ParseHolds(ps, d, held + chunks[0], authorized);
      assert Run(ps, d, first.rest, first.authorized, chunks[1..]).rest == first.rest;
    } else {
      RunHolds(ps, d, first.rest, first.authorized, chunks[1..]);
    }
  }

  // In every run, whatever the nonce, the raw spans of the events plus the bytes held back are the
  // bytes fed in, every event is what its span stands for, and nothing is held back but the
  // beginning of a marker or a marker whose end has not been seen.
  lemma RunAccounts(nonce: Bytes, digest: Bytes, d: Decoders, held: Bytes, authorized: bool, chunks: seq<Bytes>)
    requires HexDigest(digest)
    ensures var ps := Prefixes(nonce, digest);
            Accounts(ps, d, held + Concat(chunks), authorized, Run(ps, d, held, authorized, chunks))
    ensures chunks != [] ==>
              var ps, rest := Prefixes(nonce, digest), Run(Prefixes(nonce, digest), d, held, authorized, chunks).rest;
              || (exists k | 0 <= k < 4 :: |rest| < |ps[k]| && rest == ps[k][..|rest|])
              || (exists k | 0 <= k < 3 :: At(rest, 0, ps[k]) && BEL !in rest[|ps[k]|..])
  {
    hide Run, Accounts;
    var ps := Prefixes(nonce, digest);
    PrefixesAreDistinguished(nonce, digest);
    EveryRunAccounts(ps, d, held, authorized, chunks);
    if chunks != [] { RunHolds(ps, d, held, authorized, chunks); }
  }

  // Events after which an earlier managed prompt no longer authorizes a slot.
  predicate EndsAuthorization(event: Event) {
    event.PromptEvent? || event.ConnectRequestEvent? || event.PromptSlotEvent?
  }

  ghost predicate AuthorizedBy(tokens: seq<Token>, j: int, k: int) {
    && 0 <= j < k <= |tokens|
    && tokens[j].event == PromptEvent(true)
    && forall m | j < m < k :: !EndsAuthorization(tokens[m].event)
  }

  lemma {:induction false} AuthorizationMeansPrompt(tokens: seq<Token>, k: nat)
    requires k <= |tokens|
    ensures Authorization(tokens[..k], false) <==> exists j :: AuthorizedBy(tokens, j, k)
    decreases k
  {
    if k > 0 {
      assert tokens[..k][..k - 1] == tokens[..k - 1];
      AuthorizationMeansPrompt(tokens, k - 1);
      var before := k - 1;
      if exists j :: AuthorizedBy(tokens, j, before) {
        var j :| AuthorizedBy(tokens, j, before);
        if !EndsAuthorization(tokens[k - 1].event) { assert AuthorizedBy(tokens, j, k); }
      }
      if tokens[k - 1].event == PromptEvent(true) { assert AuthorizedBy(tokens, k - 1, k); }
      if exists j :: AuthorizedBy(tokens, j, k) {
        var j :| AuthorizedBy(tokens, j, k);
        if j < k - 1 { assert AuthorizedBy(tokens, j, k - 1); }
      }
    }
  }

  // In every run of a fresh parser a slot sentinel becomes a slot event exactly when a managed
  // prompt precedes it with no other prompt, connect request or slot event in between.
  lemma SlotAuthorization(nonce: Bytes, digest: Bytes, d: Decoders, chunks: seq<Bytes>, k: nat)
    requires HexDigest(digest)
    requires k < |Run(Prefixes(nonce, digest), d, [], false, chunks).tokens|
    ensures var tokens := Run(Prefixes(nonce, digest), d, [], false, chunks).tokens;
            && (tokens[k].event == PromptSlotEvent <==>
                tokens[k].raw == SlotSentinel(digest) && exists j :: AuthorizedBy(tokens, j, k))
            && forall j | AuthorizedBy(tokens, j, k) ::
                 tokens[j].raw == PROMPT_HEAD + nonce + ";managed" + [BEL]
  {
    var ps := Prefixes(nonce, digest);
    RunAccounts(nonce, digest, d, [], false, chunks);
    var tokens := Run(ps, d, [], false, chunks).tokens;
    AuthorizationMeansPrompt(tokens, k);
    assert TokenMeaning(ps, d, tokens[k], Authorization(tokens[..k], false));
    forall j | AuthorizedBy(tokens, j, k)
      ensures tokens[j].raw == PROMPT_HEAD + nonce + ";managed" + [BEL]
    {
      assert TokenMeaning(ps, d, tokens[j], Authorization(tokens[..j], false));
    }
  }
}
