/** The checksum-verified artifact cache, against a plain map from keys to what was last
    done with them. The hash is an uninterpreted function of the bytes; a persistence layer
    is an oracle whose answers come with each operation.
 */
module ArtifactCache {
  import opened Wrappers
  import opened Ordering

  type Bytes = seq<bv8>

  datatype Artifact = Artifact(
    id: string, name: string, version: string, platform: string, architecture: string, checksum: string)

  datatype Status = Hit | Miss | Corrupt | Invalid

  datatype Entry = Entry(artifact: Artifact, status: Status, refCount: int)

  // ------------------------------------------------------------------- checksums

  function Fold(c: char): char {
    if 'A' <= c <= 'Z' then (c as int + 32) as char else c
  }

  /** `strings.EqualFold` against a hexadecimal string. */
  predicate EqualFold(a: string, b: string) {
    |a| == |b| && forall i :: 0 <= i < |a| ==> Fold(a[i]) == Fold(b[i])
  }

  function TrimPrefix(s: string, prefix: string): string {
    if prefix <= s then s[|prefix|..] else s
  }

  predicate Verify(digest: Bytes -> string, data: Bytes, expected: string) {
    expected != "" && EqualFold(digest(data), TrimPrefix(expected, "sha256:"))
  }

  predicate HexDigit(c: char) { '0' <= c <= '9' || 'a' <= c <= 'f' }

  /** `c` is the hexadecimal digit `d`, in either case. */
  predicate SameDigit(c: char, d: char) {
    c == d || ('a' <= d <= 'f' && c as int == d as int - 32)
  }

  /** A checksum verifies exactly if it is not empty and, after one prefix "sha256:" if it has
      one, spells the digest digit by digit in either case.
   */
  lemma VerifyMeaning(digest: Bytes -> string, data: Bytes, expected: string)
    requires forall i :: 0 <= i < |digest(data)| ==> HexDigit(digest(data)[i])
    ensures Verify(digest, data, expected) <==>
              && expected != ""
              && var digits := if |expected| >= 7 && expected[..7] == "sha256:" then expected[7..] else expected;
                 |digits| == |digest(data)| && forall i :: 0 <= i < |digits| ==> SameDigit(digits[i], digest(data)[i])
  {
    var digits := if |expected| >= 7 && expected[..7] == "sha256:" then expected[7..] else expected;
    assert TrimPrefix(expected, "sha256:") == digits;
    forall i | 0 <= i < |digits| == |digest(data)|
      ensures Fold(digest(data)[i]) == Fold(digits[i]) <==> SameDigit(digits[i], digest(data)[i])
    {
      FoldMeaning(digits[i], digest(data)[i]);
    }
  }

  lemma FoldMeaning(c: char, d: char)
    requires HexDigit(d)
    ensures Fold(d) == Fold(c) <==> SameDigit(c, d)
  {
  }

  /** A hexadecimal digest contains no '|', so a checksum that verifies contains none. */
  lemma VerifiedChecksum(digest: Bytes -> string, data: Bytes, expected: string)
    requires Verify(digest, data, expected) && '|' !in digest(data)
    ensures '|' !in expected
  {
    var trimmed := TrimPrefix(expected, "sha256:");
    forall i | 0 <= i < |trimmed| ensures trimmed[i] != '|' {
      assert digest(data)[i] in digest(data);
      assert Fold(digest(data)[i]) == Fold(trimmed[i]);
    }
    if "sha256:" <= expected {
      assert expected == "sha256:" + trimmed;
    }
  }

  // ------------------------------------------------------------------------ keys

  function Key(a: Artifact): string {
    a.id + "|" + (a.name + "|" + (a.version + "|" + (a.platform + "|" + (a.architecture + "|" + a.checksum))))
  }

  /** A '|'-free field is recovered from the front of a joined string. */
  lemma {:induction false} FrontField(a: string, b: string, x: string, y: string)
    requires '|' !in a && '|' !in b && a + "|" + x == b + "|" + y
    ensures a == b && x == y
  {
    var s := a + "|" + x;
    assert a != [] ==> s[0] == a[0] && a[0] in a;
    assert b != [] ==> s[0] == b[0] && b[0] in b;
    if a == [] || b == [] {
      assert a == [] && b == [];
      assert s[1..] == x && s[1..] == y;
    } else {
      assert (a + "|" + x)[0] == a[0] && (b + "|" + y)[0] == b[0];
      assert (a + "|" + x)[1..] == a[1..] + "|" + x && (b + "|" + y)[1..] == b[1..] + "|" + y;
      FrontField(a[1..], b[1..], x, y);
      assert a == [a[0]] + a[1..] && b == [b[0]] + b[1..];
    }
  }

  predicate BarFree(a: Artifact) {
    && '|' !in a.id && '|' !in a.name && '|' !in a.version
    && '|' !in a.platform && '|' !in a.architecture && '|' !in a.checksum
  }

  function Bars(s: string): nat {
    if s == [] then 0 else (if s[0] == '|' then 1 else 0) + Bars(s[1..])
  }

  lemma {:induction false} BarsJoin(a: string, b: string)
    ensures Bars(a + "|" + b) == Bars(a) + 1 + Bars(b)
  {
    if a == [] {
      assert a + "|" + b == "|" + b;
      assert ("|" + b)[1..] == b;
    } else {
      BarsJoin(a[1..], b);
      assert (a + "|" + b)[1..] == a[1..] + "|" + b;
    }
  }

  lemma {:induction false} NoBars(s: string)
    ensures Bars(s) == 0 <==> '|' !in s
  {
    if s != [] {
      NoBars(s[1..]);
      assert s == [s[0]] + s[1..];
    }
  }

  lemma KeyBars(a: Artifact)
    ensures Bars(Key(a)) == 5 + Bars(a.id) + Bars(a.name) + Bars(a.version)
                            + Bars(a.platform) + Bars(a.architecture) + Bars(a.checksum)
  {
    hide Bars;
    BarsJoin(a.architecture, a.checksum);
    BarsJoin(a.platform, a.architecture + "|" + a.checksum);
    BarsJoin(a.version, a.platform + "|" + (a.architecture + "|" + a.checksum));
    BarsJoin(a.name, a.version + "|" + (a.platform + "|" + (a.architecture + "|" + a.checksum)));
    BarsJoin(a.id, a.name + "|" + (a.version + "|" + (a.platform + "|" + (a.architecture + "|" + a.checksum))));
  }

  lemma BarFreeBars(a: Artifact)
    ensures BarFree(a) <==> Bars(Key(a)) == 5
  {
    hide Bars, Key;
    KeyBars(a);
    NoBars(a.id);
    NoBars(a.name);
    NoBars(a.version);
    NoBars(a.platform);
    NoBars(a.architecture);
    NoBars(a.checksum);
  }

  /** An artifact without '|' in its fields shares its key with no other artifact. */
  lemma KeyInjective(a: Artifact, b: Artifact)
    requires BarFree(a) && Key(a) == Key(b)
    ensures a == b
  {
    hide Bars;
    BarFreeBars(a);
    BarFreeBars(b);
    FrontField(a.id, b.id, a.name + "|" + (a.version + "|" + (a.platform + "|" + (a.architecture + "|" + a.checksum))),
                           b.name + "|" + (b.version + "|" + (b.platform + "|" + (b.architecture + "|" + b.checksum))));
    FrontField(a.name, b.name, a.version + "|" + (a.platform + "|" + (a.architecture + "|" + a.checksum)),
                               b.version + "|" + (b.platform + "|" + (b.architecture + "|" + b.checksum)));
    FrontField(a.version, b.version, a.platform + "|" + (a.architecture + "|" + a.checksum),
                                     b.platform + "|" + (b.architecture + "|" + b.checksum));
    FrontField(a.platform, b.platform, a.architecture + "|" + a.checksum, b.architecture + "|" + b.checksum);
    FrontField(a.architecture, b.architecture, a.checksum, b.checksum);
  }

  /** The two sides of the first '|' of a text. */
  lemma Cut(s: string) returns (u: string, v: string)
    requires '|' in s
    ensures s == u + "|" + v && u != s
  {
    var k :| 0 <= k < |s| && s[k] == '|';
    u, v := s[..k], s[k + 1..];
    assert s == u + "|" + v;
  }

  /** A '|' inside a field can be read as a separator, and the next one as text. */
  lemma Shift(u: string, v: string, f: string, rest: string)
    ensures (u + "|" + v) + "|" + (f + "|" + rest) == u + "|" + ((v + "|" + f) + "|" + rest)
    ensures (u + "|" + v) + "|" + f == u + "|" + (v + "|" + f)
  {
    assert (u + "|" + v) + "|" + f == u + "|" + (v + "|" + f);
    assert (u + "|" + v) + "|" + (f + "|" + rest) == ((u + "|" + v) + "|" + f) + ("|" + rest);
    assert u + "|" + ((v + "|" + f) + "|" + rest) == (u + "|" + (v + "|" + f)) + ("|" + rest);
  }

  /** An artifact with a '|' in some field shares its key with another one. */
  lemma KeyCollision(a: Artifact) returns (b: Artifact)
    requires !BarFree(a)
    ensures b != a && Key(b) == Key(a)
  {
    var tail := a.architecture + "|" + a.checksum;
    if '|' in a.id {
      var u, v := Cut(a.id);
      b := a.(id := u, name := v + "|" + a.name);
      Shift(u, v, a.name, a.version + "|" + (a.platform + "|" + tail));
    } else if '|' in a.name {
      var u, v := Cut(a.name);
      b := a.(name := u, version := v + "|" + a.version);
      Shift(u, v, a.version, a.platform + "|" + tail);
    } else if '|' in a.version {
      var u, v := Cut(a.version);
      b := a.(version := u, platform := v + "|" + a.platform);
      Shift(u, v, a.platform, tail);
    } else if '|' in a.platform {
      var u, v := Cut(a.platform);
      b := a.(platform := u, architecture := v + "|" + a.architecture);
      Shift(u, v, a.architecture, a.checksum);
    } else if '|' in a.architecture {
      var u, v := Cut(a.architecture);
      b := a.(architecture := u, checksum := v + "|" + a.checksum);
      Shift(u, v, a.checksum, "");
    } else {
      var u, v := Cut(a.checksum);
      b := a.(architecture := a.architecture + "|" + u, checksum := v);
      Shift(a.architecture, u, v, "");
      assert |v| < |a.checksum|;
    }
  }

  /** A key belongs to one artifact only exactly when its fields are free of '|'. */
  lemma KeyUnique(a: Artifact)
    ensures (exists b :: b != a && Key(b) == Key(a)) <==> !BarFree(a)
  {
    hide Key;
    if !BarFree(a) {
      var b := KeyCollision(a);
    }
    if b :| b != a && Key(b) == Key(a) {
      if BarFree(a) {
        KeyInjective(a, b);
        assert false;
      }
    }
  }

  /** The key still determines a '|'-free checksum, whatever the other fields hold. */
  lemma KeyChecksum(a: Artifact, b: Artifact)
    requires '|' !in a.checksum && '|' !in b.checksum && Key(a) == Key(b)
    ensures a.checksum == b.checksum
  {
    var x := a.id + "|" + a.name + "|" + a.version + "|" + a.platform + "|" + a.architecture;
    var y := b.id + "|" + b.name + "|" + b.version + "|" + b.platform + "|" + b.architecture;
    assert Key(a) == x + "|" + a.checksum;
    assert Key(b) == y + "|" + b.checksum;
    LastField('|', x, y, a.checksum, b.checksum);
  }

  // ----------------------------------------------------------- the cache's states

  datatype Config = Config(digest: Bytes -> string, persistent: bool)

  datatype State = State(entries: map<string, Entry>, blobs: map<string, Bytes>) {
    /** `c.blobs[key]`, empty when absent. */
    function Held(key: string): Bytes {
      if key in blobs then blobs[key] else []
    }
  }

  /** The operations with what the persistence layer answers during them. */
  datatype Op =
    | Lookup(a: Artifact, loaded: Option<Bytes>)
    | Put(a: Artifact, data: Bytes, blobSaved: bool, entrySaved: bool)
    | Invalidate(a: Artifact)
    | Hydrate(persisted: seq<Entry>)

  datatype Answer = Found(status: Status) | Stored(entry: Entry) | Refused | Done

  /** The blob that `Lookup` checks: the held one or, if it is empty, the persisted one. */
  function Candidate(c: Config, s: State, a: Artifact, loaded: Option<Bytes>): Bytes {
    if s.Held(Key(a)) == [] && c.persistent && loaded.Some? then loaded.value else s.Held(Key(a))
  }

  function AfterLoad(c: Config, s: State, a: Artifact, loaded: Option<Bytes>): State {
    if s.Held(Key(a)) == [] && c.persistent && loaded.Some? then s.(blobs := s.blobs[Key(a) := loaded.value]) else s
  }

  function LookupState(c: Config, s: State, a: Artifact, loaded: Option<Bytes>): State {
    if Key(a) !in s.entries then s
    else
      var e := s.entries[Key(a)];
      var s' := AfterLoad(c, s, a, loaded);
      if Verify(c.digest, Candidate(c, s, a, loaded), a.checksum)
      then s'.(entries := s.entries[Key(a) := e.(status := Hit, refCount := e.refCount + 1)])
      else s'.(entries := s.entries[Key(a) := e.(status := Corrupt)])
  }

  function LookupAnswer(c: Config, s: State, a: Artifact, loaded: Option<Bytes>): Status {
    if Key(a) !in s.entries then Miss
    else if Verify(c.digest, Candidate(c, s, a, loaded), a.checksum) then Hit
    else Corrupt
  }

  predicate Persisted(c: Config, blobSaved: bool, entrySaved: bool) {
    c.persistent ==> blobSaved && entrySaved
  }

  predicate Accepted(c: Config, op: Op)
    requires op.Put?
  {
    Verify(c.digest, op.data, op.a.checksum) && Persisted(c, op.blobSaved, op.entrySaved)
  }

  /** A refused `Put` of a new artifact may leave its bytes behind, without an entry. */
  function PutState(c: Config, s: State, op: Op): State
    requires op.Put?
  {
    var key := Key(op.a);
    if !Verify(c.digest, op.data, op.a.checksum) then s
    else if key in s.entries then
      if !Persisted(c, op.blobSaved, op.entrySaved) then s
      else
        var e := s.entries[key];
        State(s.entries[key := e.(status := Hit, refCount := e.refCount + 1)], s.blobs[key := op.data])
    else if !Persisted(c, op.blobSaved, op.entrySaved) then s.(blobs := s.blobs[key := op.data])
    else State(s.entries[key := Entry(op.a, Hit, 1)], s.blobs[key := op.data])
  }

  function InvalidateState(s: State, a: Artifact): State {
    var key := Key(a);
    if key in s.entries then State(s.entries[key := s.entries[key].(status := Invalid)], s.blobs - {key}) else s
  }

  function HydrateState(s: State, loaded: seq<Entry>): State {
    if loaded == [] then s
    else
      var h := HydrateState(s, loaded[..|loaded| - 1]);
      var e := loaded[|loaded| - 1];
      h.(entries := h.entries[Key(e.artifact) := e])
  }

  function Step(c: Config, s: State, op: Op): State {
    match op
    case Lookup(a, loaded) => LookupState(c, s, a, loaded)
    case Put(_, _, _, _) => PutState(c, s, op)
    case Invalidate(a) => InvalidateState(s, a)
    case Hydrate(persisted) => if c.persistent then HydrateState(s, persisted) else s
  }

  function AnswerOf(c: Config, s: State, op: Op): Answer {
    match op
    case Lookup(a, loaded) => Found(LookupAnswer(c, s, a, loaded))
    case Put(a, _, _, _) => if Accepted(c, op) then Stored(PutState(c, s, op).entries[Key(a)]) else Refused
    case Invalidate(_) => Done
    case Hydrate(_) => Done
  }

  /** The state after a history that starts with an empty cache. */
  function After(c: Config, ops: seq<Op>): State {
    if ops == [] then State(map[], map[])
    else Step(c, After(c, ops[..|ops| - 1]), ops[|ops| - 1])
  }

  // ------------------------------------------------------- refinement of a plain map

  datatype Life = Never | Kept | Dropped

  /** What a plain map would remember of a key: the last accepted `Put`, unless an
      `Invalidate` came after it.
   */
  function LifeOf(c: Config, ops: seq<Op>, key: string): Life {
    if ops == [] then Never
    else
      var before := LifeOf(c, ops[..|ops| - 1], key);
      match ops[|ops| - 1]
      case Put(a, _, _, _) => if Key(a) == key && Accepted(c, ops[|ops| - 1]) then Kept else before
      case Invalidate(a) => if Key(a) == key && before.Kept? then Dropped else before
      case Lookup(_, _) => before
      case Hydrate(_) => before
  }

  ghost predicate HexDigest(c: Config) {
    forall data :: '|' !in c.digest(data)
  }

  /** How the cache holds a key of each kind of life. */
  ghost predicate Represents(c: Config, s: State, key: string, life: Life) {
    match life
    case Never => key !in s.entries
    case Kept => key in s.entries && key in s.blobs &&
                 exists b: Artifact :: Key(b) == key && Verify(c.digest, s.blobs[key], b.checksum)
    case Dropped => key in s.entries && key !in s.blobs
  }

  lemma {:induction false} RepresentsThroughout(c: Config, ops: seq<Op>, key: string)
    requires !c.persistent
    ensures Represents(c, After(c, ops), key, LifeOf(c, ops, key))
  {
    hide Key, Verify;
    if ops != [] {
      RepresentsThroughout(c, ops[..|ops| - 1], key);
      assert ops[|ops| - 1].Put? ==> Key(ops[|ops| - 1].a) == Key(ops[|ops| - 1].a);
    }
  }

  /** Without persistence, `Lookup` answers from the key's life alone: MISS if it was never
      put, HIT if the last accepted `Put` still counts, and after an `Invalidate` CORRUPT,
      except for a checksum that the empty bytes already satisfy.
   */
  lemma LookupDecided(c: Config, ops: seq<Op>, a: Artifact, loaded: Option<Bytes>)
    requires !c.persistent && HexDigest(c) && '|' !in a.checksum
    ensures LookupAnswer(c, After(c, ops), a, loaded) ==
              match LifeOf(c, ops, Key(a))
              case Never => Miss
              case Kept => Hit
              case Dropped => if Verify(c.digest, [], a.checksum) then Hit else Corrupt
  {
    RepresentsThroughout(c, ops, Key(a));
    var s := After(c, ops);
    if LifeOf(c, ops, Key(a)).Kept? {
      var b: Artifact :| Key(b) == Key(a) && Verify(c.digest, s.blobs[Key(a)], b.checksum);
      VerifiedChecksum(c.digest, s.blobs[Key(a)], b.checksum);
      KeyChecksum(a, b);
    }
  }

  /** With any persistence, a hit is only reported for bytes that match the checksum. */
  lemma HitIsVerified(c: Config, s: State, a: Artifact, loaded: Option<Bytes>)
    requires LookupAnswer(c, s, a, loaded).Hit?
    ensures Verify(c.digest, LookupState(c, s, a, loaded).Held(Key(a)), a.checksum)
  {
    hide Key, Verify;
  }

  // --------------------------------------------------------- a refused Put is invisible

  /** The two states differ at most in bytes held under `key`, and only while it has no entry. */
  ghost predicate Alike(s: State, t: State, key: string) {
    && s.entries == t.entries
    && forall k :: k != key || key in s.entries ==>
         (k in s.blobs <==> k in t.blobs) && (k in s.blobs ==> s.blobs[k] == t.blobs[k])
  }

  /** The operation loads no entry of that key. */
  predicate LeavesOut(op: Op, key: string) {
    op.Hydrate? ==> forall e :: e in op.persisted ==> Key(e.artifact) != key
  }

  lemma AlikeStep(c: Config, s: State, t: State, key: string, op: Op)
    requires Alike(s, t, key) && LeavesOut(op, key)
    ensures Alike(Step(c, s, op), Step(c, t, op), key) && AnswerOf(c, s, op) == AnswerOf(c, t, op)
  {
    hide Alike, HydrateState, LookupState, LookupAnswer, PutState, InvalidateState, Accepted;
    match op {
      case Lookup(a, loaded) => LookedUpAlike(c, s, t, key, a, loaded);
      case Put(_, _, _, _) => PutAlike(c, s, t, key, op);
      case Invalidate(a) => InvalidatedAlike(s, t, key, a);
      case Hydrate(persisted) => HydratedAlike(s, t, key, persisted);
    }
  }

  lemma LookedUpAlike(c: Config, s: State, t: State, key: string, a: Artifact, loaded: Option<Bytes>)
    requires Alike(s, t, key)
    ensures Alike(LookupState(c, s, a, loaded), LookupState(c, t, a, loaded), key)
    ensures LookupAnswer(c, s, a, loaded) == LookupAnswer(c, t, a, loaded)
  {
    hide Key, Verify;
  }

  lemma PutAlike(c: Config, s: State, t: State, key: string, op: Op)
    requires op.Put? && Alike(s, t, key)
    ensures Alike(PutState(c, s, op), PutState(c, t, op), key)
    ensures Accepted(c, op) ==>
              Key(op.a) in PutState(c, s, op).entries && PutState(c, s, op).entries == PutState(c, t, op).entries
  {
    hide Key, Verify;
  }

  lemma InvalidatedAlike(s: State, t: State, key: string, a: Artifact)
    requires Alike(s, t, key)
    ensures Alike(InvalidateState(s, a), InvalidateState(t, a), key)
  {
    hide Key;
  }

  lemma {:induction false} HydratedAlike(s: State, t: State, key: string, loaded: seq<Entry>)
    requires Alike(s, t, key) && forall e :: e in loaded ==> Key(e.artifact) != key
    ensures Alike(HydrateState(s, loaded), HydrateState(t, loaded), key)
  {
    hide Key;
    if loaded != [] {
      var e := loaded[|loaded| - 1];
      assert e in loaded;
      HydratedAlike(s, t, key, loaded[..|loaded| - 1]);
      var h, i := HydrateState(s, loaded[..|loaded| - 1]), HydrateState(t, loaded[..|loaded| - 1]);
      assert HydrateState(s, loaded) == State(h.entries[Key(e.artifact) := e], h.blobs);
      assert HydrateState(t, loaded) == State(i.entries[Key(e.artifact) := e], i.blobs);
    }
  }

  function Answers(c: Config, s: State, ops: seq<Op>): seq<Answer>
    decreases |ops|
  {
    if ops == [] then [] else [AnswerOf(c, s, ops[0])] + Answers(c, Step(c, s, ops[0]), ops[1..])
  }

  /** The statistics before the operations and after each of them. */
  ghost function StatsSeen(c: Config, s: State, ops: seq<Op>): seq<Stats>
    decreases |ops|
  {
    [StatsOf(s)] + if ops == [] then [] else StatsSeen(c, Step(c, s, ops[0]), ops[1..])
  }

  lemma AlikeStats(s: State, t: State, key: string)
    requires Alike(s, t, key)
    ensures StatsOf(s) == StatsOf(t)
  {
    AlikeBytes(s, t, key, s.entries.Keys);
  }

  lemma {:induction false} AlikeAnswers(c: Config, s: State, t: State, key: string, ops: seq<Op>)
    requires Alike(s, t, key) && forall op :: op in ops ==> LeavesOut(op, key)
    ensures Answers(c, s, ops) == Answers(c, t, ops) && StatsSeen(c, s, ops) == StatsSeen(c, t, ops)
    decreases |ops|
  {
    hide Alike, Step, AnswerOf, LeavesOut, StatsOf;
    AlikeStats(s, t, key);
    if ops != [] {
      AlikeStep(c, s, t, key, ops[0]);
      AlikeAnswers(c, Step(c, s, ops[0]), Step(c, t, ops[0]), key, ops[1..]);
    }
  }

  /** A refused `Put` of a new key changes no later answer and no statistics, now or later, as
      long as no entry of that key is loaded from persistence.
   */
  lemma RefusedPutInvisible(c: Config, s: State, op: Op, ops: seq<Op>)
    requires op.Put? && !Accepted(c, op) && Key(op.a) !in s.entries
    requires forall o :: o in ops ==> LeavesOut(o, Key(op.a))
    ensures Answers(c, Step(c, s, op), ops) == Answers(c, s, ops)
    ensures StatsSeen(c, Step(c, s, op), ops) == StatsSeen(c, s, ops)
  {
    hide Key, Verify, Answers, LeavesOut, StatsSeen;
    var t := Step(c, s, op);
    assert Alike(t, s, Key(op.a));
    AlikeAnswers(c, t, s, Key(op.a), ops);
  }

  lemma HydrateOne(s: State, e: Entry)
    ensures HydrateState(s, [e]) == s.(entries := s.entries[Key(e.artifact) := e])
  {
    hide Key;
    assert [e][..0] == [];
  }

  lemma TwoAnswers(c: Config, s: State, ops: seq<Op>)
    requires |ops| == 2
    ensures Answers(c, s, ops) == [AnswerOf(c, s, ops[0]), AnswerOf(c, Step(c, s, ops[0]), ops[1])]
  {
    hide Step, AnswerOf;
    var s1 := Step(c, s, ops[0]);
    assert ops[1..] == [ops[1]] && ops[1..][1..] == [];
    assert Answers(c, s1, ops[1..]) == [AnswerOf(c, s1, ops[1])] + Answers(c, Step(c, s1, ops[1]), []);
  }

  /** Loading such an entry exposes the bytes that the refused `Put` left behind. */
  lemma LoadedEntryExposes(c: Config, a: Artifact, data: Bytes)
    requires c.persistent && data != [] && Verify(c.digest, data, a.checksum) && !Verify(c.digest, [], a.checksum)
    ensures var put := Put(a, data, true, false);
            var s := After(c, []);
            var ops := [Hydrate([Entry(a, Hit, 1)]), Lookup(a, None)];
            && !Accepted(c, put) && Key(a) !in s.entries
            && Answers(c, Step(c, s, put), ops) == [Done, Found(Hit)] && Answers(c, s, ops) == [Done, Found(Corrupt)]
  {
    hide Key, Verify;
    var put := Put(a, data, true, false);
    var s := After(c, []);
    var ops := [Hydrate([Entry(a, Hit, 1)]), Lookup(a, None)];
    assert [Entry(a, Hit, 1)][..0] == [];
    var t := Step(c, s, put);
    HydrateOne(s, Entry(a, Hit, 1));
    HydrateOne(t, Entry(a, Hit, 1));
    var h := s.(entries := s.entries[Key(a) := Entry(a, Hit, 1)]);
    var i := t.(entries := t.entries[Key(a) := Entry(a, Hit, 1)]);
    assert Step(c, s, ops[0]) == h && Step(c, t, ops[0]) == i;
    assert AnswerOf(c, h, ops[1]) == Found(Corrupt) && AnswerOf(c, i, ops[1]) == Found(Hit);
    TwoAnswers(c, s, ops);
    TwoAnswers(c, t, ops);
  }

  // --------------------------------------------------------------- reference counts

  /** The accepted puts of a key plus the hits on it. */
  function Credits(c: Config, ops: seq<Op>, key: string): nat {
    if ops == [] then 0
    else
      var init := ops[..|ops| - 1];
      var op := ops[|ops| - 1];
      Credits(c, init, key) +
      match op
      case Put(a, _, _, _) => if Key(a) == key && Accepted(c, op) then 1 else 0
      case Lookup(a, loaded) => if Key(a) == key && LookupAnswer(c, After(c, init), a, loaded).Hit? then 1 else 0
      case Invalidate(_) => 0
      case Hydrate(_) => 0
  }

  /** Reference counts are conserved: they are the credits of their key. */
  lemma {:induction false} RefCounts(c: Config, ops: seq<Op>, key: string)
    requires forall op :: op in ops ==> !op.Hydrate?
    ensures var s := After(c, ops);
            if key in s.entries then s.entries[key].refCount == Credits(c, ops, key) else Credits(c, ops, key) == 0
  {
    hide Key, Verify, Persisted;
    if ops != [] {
      assert ops[|ops| - 1] in ops;
      RefCounts(c, ops[..|ops| - 1], key);
    }
  }

  // -------------------------------------------------------------------- statistics

  /** After an operation the entry of its key has the status of its outcome, and the entries of
      other keys are as they were: a hit or corrupt by a look-up, a hit by an accepted put, invalid by
      an invalidation; a look-up that misses and a refused put change no entry.
   */
  lemma EntryStatus(c: Config, s: State, op: Op, key: string)
    requires !op.Hydrate?
    ensures var a := op.a;
            var t := Step(c, s, op);
            && (key != Key(a) ==> (key in t.entries <==> key in s.entries)
                                  && (key in s.entries ==> t.entries[key] == s.entries[key]))
            && (op.Lookup? && Key(a) in s.entries ==>
                 Key(a) in t.entries && t.entries[Key(a)].status ==
                   (if Verify(c.digest, Candidate(c, s, a, op.loaded), a.checksum) then Hit else Corrupt))
            && (op.Put? && AnswerOf(c, s, op) != Refused ==> Key(a) in t.entries && t.entries[Key(a)].status == Hit)
            && (op.Invalidate? && Key(a) in s.entries ==>
                 Key(a) in t.entries && t.entries[Key(a)].status == Invalid && Key(a) !in t.blobs)
            && (AnswerOf(c, s, op) in {Found(Miss), Refused} ==> t.entries == s.entries)
  {
    hide Key, Verify;
  }

  datatype Stats = Stats(entries: nat, bytes: nat, hits: nat)

  ghost function BytesOver(s: State, keys: set<string>): nat {
    if keys == {} then 0
    else
      var key :| key in keys;
      |s.Held(key)| + BytesOver(s, keys - {key})
  }

  ghost function StatsOf(s: State): Stats {
    Stats(|s.entries|, BytesOver(s, s.entries.Keys), |set key | key in s.entries && s.entries[key].status.Hit?|)
  }

  /** The order in which bytes are added up does not matter. */
  lemma {:induction false} BytesRemove(s: State, keys: set<string>, key: string)
    requires key in keys
    ensures BytesOver(s, keys) == |s.Held(key)| + BytesOver(s, keys - {key})
    decreases |keys|
  {
    var k :| k in keys && BytesOver(s, keys) == |s.Held(k)| + BytesOver(s, keys - {k});
    if k != key {
      BytesRemove(s, keys - {k}, key);
      BytesRemove(s, keys - {key}, k);
      assert keys - {k} - {key} == keys - {key} - {k};
    }
  }

  lemma {:induction false} AlikeBytes(s: State, t: State, except: string, keys: set<string>)
    requires Alike(s, t, except) && keys <= s.entries.Keys
    ensures BytesOver(s, keys) == BytesOver(t, keys)
    decreases |keys|
  {
    if keys != {} {
      var key :| key in keys;
      BytesRemove(s, keys, key);
      BytesRemove(t, keys, key);
      AlikeBytes(s, t, except, keys - {key});
    }
  }

  // ----------------------------------------------------------------- the code itself

  /** `strings.Join` of the six fields. */
  method JoinKey(a: Artifact) returns (key: string)
    ensures key == Key(a)
  {
    var fields := [a.id, a.name, a.version, a.platform, a.architecture, a.checksum];
    key := fields[5];
    for k := 5 downto 0
      invariant key == Joined(fields, k)
    {
      key := fields[k] + "|" + key;
    }
    assert Joined(fields, 4) == a.architecture + "|" + a.checksum;
    assert Joined(fields, 2) == a.version + "|" + (a.platform + "|" + Joined(fields, 4));
  }

  /** The fields from number `k` on, joined. */
  function Joined(fields: seq<string>, k: nat): string
    requires k < |fields|
    decreases |fields| - k
  {
    if k == |fields| - 1 then fields[k] else fields[k] + "|" + Joined(fields, k + 1)
  }

  class Cache {
    const config: Config
    var entries: map<string, Entry>
    var blobs: map<string, Bytes>

    constructor (config: Config)
      ensures this.config == config && Now() == After(config, [])
    {
      this.config := config;
      entries, blobs := map[], map[];
    }

    ghost function Now(): State
      reads this
    {
      State(entries, blobs)
    }

    method LookupArtifact(a: Artifact, loaded: Option<Bytes>) returns (e: Entry, status: Status)
      modifies this
      ensures Now() == Step(config, old(Now()), Lookup(a, loaded))
      ensures AnswerOf(config, old(Now()), Lookup(a, loaded)) == Found(status)
      ensures if status.Miss? then e == Entry(a, Miss, 0) else Key(a) in entries && e == entries[Key(a)]
      ensures status == Miss <==> Key(a) !in old(entries)
      ensures status == Miss ==> entries == old(entries) && blobs == old(blobs)
      ensures status != Miss ==>
                var was := old(entries)[Key(a)];
                && (status == Hit || status == Corrupt) && e.status == status && e.artifact == was.artifact
                && e.refCount == (if status == Hit then was.refCount + 1 else was.refCount)
                && entries == old(entries)[Key(a) := e]
    {
      hide Key, Verify;
      var key := JoinKey(a);
      if key !in entries {
        return Entry(a, Miss, 0), Miss;
      }
      e := entries[key];
      var blob := if key in blobs then blobs[key] else [];
      if |blob| == 0 && config.persistent && loaded.Some? {
        blob := loaded.value;
        blobs := blobs[key := blob];
      }
      if !Verify(config.digest, blob, a.checksum) {
        e := e.(status := Corrupt);
        entries := entries[key := e];
        return e, Corrupt;
      }
      e := e.(status := Hit, refCount := e.refCount + 1);
      entries := entries[key := e];
      return e, Hit;
    }

    method PutArtifact(a: Artifact, data: Bytes, blobSaved: bool, entrySaved: bool) returns (r: Option<Entry>)
      modifies this
      ensures var op := Put(a, data, blobSaved, entrySaved);
              && Now() == Step(config, old(Now()), op)
              && AnswerOf(config, old(Now()), op) == if r.Some? then Stored(r.value) else Refused
      ensures r.Some? <==>
                Verify(config.digest, data, a.checksum) && (config.persistent ==> blobSaved && entrySaved)
      ensures r.None? ==> entries == old(entries)
      ensures r.Some? ==>
                && entries == old(entries)[Key(a) := r.value] && blobs == old(blobs)[Key(a) := data]
                && r.value.status == Hit
                && if Key(a) !in old(entries) then r.value.artifact == a && r.value.refCount == 1
                   else r.value.artifact == old(entries)[Key(a)].artifact &&
                        r.value.refCount == old(entries)[Key(a)].refCount + 1
    {
      hide Key, EqualFold;
      if a.checksum == "" {
        return None;
      }
      if !Verify(config.digest, data, a.checksum) {
        return None;
      }
      var key := JoinKey(a);
      if key in entries {
        var existing := entries[key].(status := Hit, refCount := entries[key].refCount + 1);
        if config.persistent {
          if !blobSaved {
            return None;
          }
          if !entrySaved {
            return None;
          }
        }
        blobs := blobs[key := data];
        entries := entries[key := existing];
        return Some(existing);
      }
      blobs := blobs[key := data];
      var e := Entry(a, Hit, 1);
      if config.persistent {
        if !blobSaved {
          return None;
        }
        if !entrySaved {
          return None;
        }
      }
      entries := entries[key := e];
      return Some(e);
    }

    method InvalidateArtifact(a: Artifact)
      modifies this
      ensures Now() == Step(config, old(Now()), Invalidate(a))
      ensures Key(a) !in old(entries) ==> entries == old(entries) && blobs == old(blobs)
      ensures Key(a) in old(entries) ==>
                && entries == old(entries)[Key(a) := old(entries)[Key(a)].(status := Invalid)]
                && blobs == old(blobs) - {Key(a)}
    {
      hide Key;
      var key := JoinKey(a);
      if key in entries {
        entries := entries[key := entries[key].(status := Invalid)];
        blobs := blobs - {key};
      }
    }

    method HydrateEntries(loaded: seq<Entry>)
      modifies this
      ensures Now() == Step(config, old(Now()), Hydrate(loaded))
    {
      hide Key;
      if !config.persistent {
        return;
      }
      for k := 0 to |loaded|
        invariant Now() == HydrateState(old(Now()), loaded[..k])
      {
        assert loaded[..k + 1][..k] == loaded[..k];
        var key := JoinKey(loaded[k].artifact);
        entries := entries[key := loaded[k]];
      }
      assert loaded[..|loaded|] == loaded;
    }

    method GetStats() returns (stats: Stats)
      ensures stats == StatsOf(Now())
    {
      var bytes, hits: nat := 0, 0;
      ghost var hit: set<string> := {};
      var todo := entries.Keys;
      while todo != {}
        invariant todo <= entries.Keys
        invariant bytes + BytesOver(Now(), todo) == BytesOver(Now(), entries.Keys)
        invariant hit == (set key | key in entries.Keys - todo && entries[key].status.Hit?) && hits == |hit|
        decreases |todo|
      {
        var key :| key in todo;
        BytesRemove(Now(), todo, key);
        todo := todo - {key};
        bytes := bytes + |if key in blobs then blobs[key] else []|;
        if entries[key].status.Hit? {
          hits := hits + 1;
          hit := hit + {key};
        }
      }
      assert hit == set key | key in entries && entries[key].status.Hit?;
      stats := Stats(|entries|, bytes, hits);
    }
  }
}
