/**
 Promise ids: `root`, `root:1`, `root:1.2`, `root:d0123456789abcdef.4`, ...

 Replay rests on ids: an operation of a workflow is recognised by its id alone.
 So two operations anywhere under any roots must not share one, and the server
 must accept every id the contexts mint.
 */
module Ids {
  import opened Protocol

  const ORIGIN_SEP := ':'
  const LINEAGE_SEP := '.'

  // ---------------------------------------------------------------------
  //  The id format
  // ---------------------------------------------------------------------

  function JoinId(ancestor: Id, segment: string): Id {
    ancestor + [if ORIGIN_SEP in ancestor then LINEAGE_SEP else ORIGIN_SEP] + segment
  }

  /** Everything before the first `:`. */
  function OriginOf(id: Id): Id {
    if id == "" || id[0] == ORIGIN_SEP then "" else [id[0]] + OriginOf(id[1..])
  }

  predicate ValidRoot(id: Id) {
    id != "" && '\0' !in id && ORIGIN_SEP !in id
  }

  // ---------------------------------------------------------------------
  //  Reading an id back
  // ---------------------------------------------------------------------

  /** What an id stands for: a root and the segments below it. */
  datatype Lineage = Lineage(root: Id, path: seq<string>)

  function Encode(l: Lineage): Id
    decreases |l.path|
  {
    if l.path == [] then l.root
    else JoinId(Encode(Lineage(l.root, l.path[..|l.path| - 1])), l.path[|l.path| - 1])
  }

  /** Split on `.`, as `str::split` does. */
  function SplitDots(s: string): (parts: seq<string>)
    ensures parts != []
  {
    if s == "" then [""]
    else
      var parts := SplitDots(s[1..]);
      if s[0] == LINEAGE_SEP then [""] + parts else [[s[0]] + parts[0]] + parts[1..]
  }

  function Decode(id: Id): Lineage {
    var origin := OriginOf(id);
    Lineage(origin, if |id| <= |origin| then [] else SplitDots(id[|origin| + 1..]))
  }

  predicate Segment(s: string) { LINEAGE_SEP !in s && '\0' !in s }

  ghost predicate WellFormed(l: Lineage) {
    ValidRoot(l.root) && forall s | s in l.path :: Segment(s)
  }

  // ---------------------------------------------------------------------
  //  Decoding inverts encoding
  // ---------------------------------------------------------------------

  lemma {:induction false} OriginBeforeSep(root: Id, rest: string)
    requires ORIGIN_SEP !in root
    ensures OriginOf(root) == root
    ensures OriginOf(root + [ORIGIN_SEP] + rest) == root
  {
    if root != "" {
      OriginBeforeSep(root[1..], rest);
      assert (root + [ORIGIN_SEP] + rest)[1..] == root[1..] + [ORIGIN_SEP] + rest;
    }
  }

  lemma {:induction false} SplitOne(s: string)
    requires LINEAGE_SEP !in s
    ensures SplitDots(s) == [s]
  {
    if s != "" {
      assert s[0] in s;
      SplitOne(s[1..]);
      assert [s[0]] + s[1..] == s;
    }
  }

  lemma {:induction false} SplitJoined(s: string, segment: string)
    requires LINEAGE_SEP !in segment
    ensures SplitDots(s + [LINEAGE_SEP] + segment) == SplitDots(s) + [segment]
  {
    var t := s + [LINEAGE_SEP] + segment;
    if s == "" {
      SplitOne(segment);
      assert t[1..] == segment;
    } else {
      SplitJoined(s[1..], segment);
      assert t[1..] == s[1..] + [LINEAGE_SEP] + segment;
    }
  }

  function Dotted(path: seq<string>): string
    requires path != []
  {
    if |path| == 1 then path[0] else Dotted(path[..|path| - 1]) + [LINEAGE_SEP] + path[|path| - 1]
  }

  lemma {:induction false} EncodeIs(l: Lineage)
    requires WellFormed(l)
    ensures Encode(l) == if l.path == [] then l.root else l.root + [ORIGIN_SEP] + Dotted(l.path)
    decreases |l.path|
  {
    if |l.path| > 1 {
      EncodeIs(Lineage(l.root, l.path[..|l.path| - 1]));
    }
  }

  lemma {:induction false} SplitDotted(path: seq<string>)
    requires path != [] && forall s | s in path :: Segment(s)
    ensures SplitDots(Dotted(path)) == path
  {
    assert path[|path| - 1] in path;
    if |path| == 1 {
      SplitOne(path[0]);
    } else {
      SplitDotted(path[..|path| - 1]);
      SplitJoined(Dotted(path[..|path| - 1]), path[|path| - 1]);
    }
  }

  /** Ids decode uniquely. */
  lemma DecodeEncode(l: Lineage)
    requires WellFormed(l)
    ensures Decode(Encode(l)) == l
    ensures OriginOf(Encode(l)) == l.root
  {
    EncodeIs(l);
    if l.path == [] {
      OriginBeforeSep(l.root, "");
    } else {
      OriginBeforeSep(l.root, Dotted(l.path));
      SplitDotted(l.path);
      assert Encode(l)[|l.root| + 1..] == Dotted(l.path);
    }
  }

  lemma EncodeInjective(a: Lineage, b: Lineage)
    requires WellFormed(a) && WellFormed(b) && Encode(a) == Encode(b)
    ensures a == b
  {
    DecodeEncode(a);
    DecodeEncode(b);
  }

  /** Only `:` must be kept out of a root: its origin is recovered from the ids
      below it exactly when it holds none. */
  lemma OriginRecoveredExactly(root: Id, segment: string)
    ensures OriginOf(JoinId(root, segment)) == root <==> ORIGIN_SEP !in root
  {
    if ORIGIN_SEP !in root {
      OriginBeforeSep(root, segment);
    } else {
      OriginHoldsNoSep(JoinId(root, segment));
    }
  }

  lemma {:induction false} OriginHoldsNoSep(id: Id)
    ensures ORIGIN_SEP !in OriginOf(id)
  {
    if id != "" && id[0] != ORIGIN_SEP {
      OriginHoldsNoSep(id[1..]);
    }
  }

  // ---------------------------------------------------------------------
  //  Sequence numbers
  // ---------------------------------------------------------------------

  function DigitChar(n: nat): (c: char)
    requires n < 10
    ensures IsDigit(c) && c as int - '0' as int == n
  {
    (n + '0' as int) as char
  }

  function Decimal(n: nat): string {
    if n < 10 then [DigitChar(n)] else Decimal(n / 10) + [DigitChar(n % 10)]
  }

  lemma {:induction false} DecimalReadsBack(n: nat)
    ensures Decimal(n) != "" && forall c | c in Decimal(n) :: IsDigit(c)
    ensures Digits(Decimal(n)) == n
  {
    if n >= 10 {
      DecimalReadsBack(n / 10);
      assert Decimal(n)[..|Decimal(n)| - 1] == Decimal(n / 10);
    } else {
      assert Decimal(n)[..0] == "";
    }
  }

  /** A sign, a numeral and nothing else, within 64 bits, is read as its number, and one
      outside them not at all. */
  lemma NumeralParses(n: nat)
    ensures ParseI64(Decimal(n)) == ParseI64("+" + Decimal(n)) == if n <= I64_MAX then Some(n) else None
    ensures var m: int := -(n as int);
            ParseI64("-" + Decimal(n)) == if I64_MIN <= m then Some(m) else None
  {
    DecimalReadsBack(n);
    assert Decimal(n)[0] in Decimal(n);
    assert ("+" + Decimal(n))[1..] == Decimal(n) && ("-" + Decimal(n))[1..] == Decimal(n);
  }

  /** Only a sign and at least one digit are read. */
  lemma OnlyNumeralsParse(s: string)
    requires ParseI64(s).Some?
    ensures s != "" && forall i | 0 < i < |s| :: IsDigit(s[i])
    ensures IsDigit(s[0]) || ((s[0] == '+' || s[0] == '-') && |s| > 1)
    ensures I64_MIN <= ParseI64(s).value <= I64_MAX
  {
    if s[0] == '+' || s[0] == '-' {
      forall i | 0 < i < |s| ensures IsDigit(s[i]) { assert s[i] == s[1..][i - 1]; }
    } else {
      forall i | 0 <= i < |s| ensures IsDigit(s[i]) { assert s[i] in s; }
    }
  }

  // ---------------------------------------------------------------------
  //  The calls of a workflow
  // ---------------------------------------------------------------------

  /** One operation: the `n`-th of its context, or the `n`-th, detached. */
  datatype Call = Child(n: nat) | Detached(n: nat)

  predicate IsHex16(s: string) {
    |s| == 16 && forall c | c in s :: IsDigit(c) || 'a' <= c <= 'f'
  }

  ghost predicate Hashing(hash: string -> string) {
    forall s :: IsHex16(hash(s))
  }

  /** The path a call leads to: a detached call hangs off the origin, under the
      hash of the id it would have had. */
  function PathAfter(hash: string -> string, root: Id, calls: seq<Call>): seq<string> {
    if calls == [] then []
    else
      var before := PathAfter(hash, root, calls[..|calls| - 1]);
      var last := calls[|calls| - 1];
      var raw := before + [Decimal(last.n)];
      if last.Child? then raw else ["d" + hash(Encode(Lineage(root, raw)))]
  }

  /** The id of the operation reached from the root by these nested calls. */
  function IdAfter(hash: string -> string, root: Id, calls: seq<Call>): Id {
    Encode(Lineage(root, PathAfter(hash, root, calls)))
  }

  lemma DecimalIsSegment(n: nat)
    ensures Segment(Decimal(n)) && Decimal(n) != "" && Decimal(n)[0] != 'd'
  {
    DecimalReadsBack(n);
    assert Decimal(n)[0] in Decimal(n);
  }

  lemma {:induction false} PathsAreSegments(hash: string -> string, root: Id, calls: seq<Call>)
    requires ValidRoot(root) && Hashing(hash)
    ensures WellFormed(Lineage(root, PathAfter(hash, root, calls)))
    ensures |PathAfter(hash, root, calls)| <= |calls|
    ensures calls != [] ==> PathAfter(hash, root, calls) != []
  {
    if calls != [] {
      var before, last := calls[..|calls| - 1], calls[|calls| - 1];
      PathsAreSegments(hash, root, before);
      DecimalIsSegment(last.n);
      var raw := PathAfter(hash, root, before) + [Decimal(last.n)];
      assert IsHex16(hash(Encode(Lineage(root, raw))));
    }
  }

  /** The id a detached call would have had: what gets hashed. */
  function RawId(hash: string -> string, root: Id, calls: seq<Call>): Id
    requires calls != []
  {
    Encode(Lineage(root, PathAfter(hash, root, calls[..|calls| - 1]) + [Decimal(calls[|calls| - 1].n)]))
  }

  /** Two different ids with the same hash. */
  predicate Collides(hash: string -> string, a: Id, b: Id) {
    a != b && hash(a) == hash(b)
  }

  /** The hash gave two of the ids on the way to these calls the same value. */
  ghost predicate Collision(hash: string -> string, r1: Id, c1: seq<Call>, r2: Id, c2: seq<Call>) {
    exists i, j | 0 < i <= |c1| && 0 < j <= |c2| ::
      Collides(hash, RawId(hash, r1, c1[..i]), RawId(hash, r2, c2[..j]))
  }

  lemma LastSegment(hash: string -> string, root: Id, calls: seq<Call>)
    requires ValidRoot(root) && Hashing(hash) && calls != []
    ensures var path := PathAfter(hash, root, calls);
            && path != [] && path[|path| - 1] != ""
            && (calls[|calls| - 1].Child? <==> path[|path| - 1][0] != 'd')
  {
    DecimalIsSegment(calls[|calls| - 1].n);
  }

  lemma SameRawOrCollision(hash: string -> string, root: Id, c1: seq<Call>, c2: seq<Call>)
    requires ValidRoot(root) && Hashing(hash) && c1 != [] && c2 != []
    requires PathAfter(hash, root, c1) == PathAfter(hash, root, c2)
    requires c1[|c1| - 1].Child? == c2[|c2| - 1].Child?
    ensures RawId(hash, root, c1) == RawId(hash, root, c2) || Collides(hash, RawId(hash, root, c1), RawId(hash, root, c2))
  {
    if c1[|c1| - 1].Detached? {
      assert ("d" + hash(RawId(hash, root, c1)))[1..] == hash(RawId(hash, root, c1));
      assert ("d" + hash(RawId(hash, root, c2)))[1..] == hash(RawId(hash, root, c2));
    }
  }

  lemma SameLastCall(hash: string -> string, root: Id, c1: seq<Call>, c2: seq<Call>)
    requires ValidRoot(root) && Hashing(hash) && c1 != [] && c2 != []
    requires RawId(hash, root, c1) == RawId(hash, root, c2)
    requires c1[|c1| - 1].Child? == c2[|c2| - 1].Child?
    ensures c1[|c1| - 1] == c2[|c2| - 1]
    ensures IdAfter(hash, root, c1[..|c1| - 1]) == IdAfter(hash, root, c2[..|c2| - 1])
  {
    var b1, b2 := c1[..|c1| - 1], c2[..|c2| - 1];
    var p1, p2 := PathAfter(hash, root, b1), PathAfter(hash, root, b2);
    var d1, d2 := Decimal(c1[|c1| - 1].n), Decimal(c2[|c2| - 1].n);
    PathsAreSegments(hash, root, b1);
    PathsAreSegments(hash, root, b2);
    DecimalIsSegment(c1[|c1| - 1].n);
    DecimalIsSegment(c2[|c2| - 1].n);
    DecodeEncode(Lineage(root, p1 + [d1]));
    DecodeEncode(Lineage(root, p2 + [d2]));
    assert p1 + [d1] == p2 + [d2];
    assert (p1 + [d1])[..|p1|] == p1 && (p2 + [d2])[..|p2|] == p2;
    assert (p1 + [d1])[|p1|] == d1 && (p2 + [d2])[|p2|] == d2;
    DecimalReadsBack(c1[|c1| - 1].n);
    DecimalReadsBack(c2[|c2| - 1].n);
  }

  /** Equal ids were minted under the same root and along the same path. */
  lemma SameIdSamePath(hash: string -> string, r1: Id, c1: seq<Call>, r2: Id, c2: seq<Call>)
    requires ValidRoot(r1) && ValidRoot(r2) && Hashing(hash)
    requires IdAfter(hash, r1, c1) == IdAfter(hash, r2, c2)
    ensures r1 == r2 && PathAfter(hash, r1, c1) == PathAfter(hash, r2, c2)
  {
    PathsAreSegments(hash, r1, c1);
    PathsAreSegments(hash, r2, c2);
    EncodeInjective(Lineage(r1, PathAfter(hash, r1, c1)), Lineage(r2, PathAfter(hash, r2, c2)));
  }

  lemma SamePathSameKind(hash: string -> string, root: Id, c1: seq<Call>, c2: seq<Call>)
    requires ValidRoot(root) && Hashing(hash)
    requires PathAfter(hash, root, c1) == PathAfter(hash, root, c2)
    ensures c1 == [] <==> c2 == []
    ensures c1 != [] && c2 != [] ==> c1[|c1| - 1].Child? == c2[|c2| - 1].Child?
  {
    PathsAreSegments(hash, root, c1);
    PathsAreSegments(hash, root, c2);
    if c1 != [] && c2 != [] {
      LastSegment(hash, root, c1);
      LastSegment(hash, root, c2);
    }
  }

  /** One level of the induction below. */
  lemma SameParentOrCollision(hash: string -> string, root: Id, c1: seq<Call>, c2: seq<Call>)
    requires ValidRoot(root) && Hashing(hash) && c1 != []
    requires PathAfter(hash, root, c1) == PathAfter(hash, root, c2)
    ensures c2 != []
    ensures || Collides(hash, RawId(hash, root, c1), RawId(hash, root, c2))
            || (c1[|c1| - 1] == c2[|c2| - 1]
                && IdAfter(hash, root, c1[..|c1| - 1]) == IdAfter(hash, root, c2[..|c2| - 1]))
  {
    SamePathSameKind(hash, root, c1, c2);
    SameRawOrCollision(hash, root, c1, c2);
    if RawId(hash, root, c1) == RawId(hash, root, c2) {
      SameLastCall(hash, root, c1, c2);
    }
  }

  lemma SameCalls(c1: seq<Call>, c2: seq<Call>)
    requires c1 != [] && c2 != [] && c1[..|c1| - 1] == c2[..|c2| - 1] && c1[|c1| - 1] == c2[|c2| - 1]
    ensures c1 == c2
  {
    assert c1 == c1[..|c1| - 1] + [c1[|c1| - 1]];
    assert c2 == c2[..|c2| - 1] + [c2[|c2| - 1]];
  }

  lemma PrefixOfPrefix(c: seq<Call>, i: nat)
    requires c != [] && i <= |c| - 1
    ensures c[..|c| - 1][..i] == c[..i]
  {
  }

  lemma {:induction false} FirstDifference(hash: string -> string, r1: Id, c1: seq<Call>, r2: Id, c2: seq<Call>)
    returns (i: nat, j: nat)
    requires ValidRoot(r1) && ValidRoot(r2) && Hashing(hash)
    requires IdAfter(hash, r1, c1) == IdAfter(hash, r2, c2)
    ensures i <= |c1| && j <= |c2|
    ensures if i == 0 || j == 0 then r1 == r2 && c1 == c2
            else Collides(hash, RawId(hash, r1, c1[..i]), RawId(hash, r2, c2[..j]))
    decreases |c1|
  {
    i, j := 0, 0;
    SameIdSamePath(hash, r1, c1, r2, c2);
    if c1 == [] {
      SamePathSameKind(hash, r1, c1, c2);
    } else {
      SameParentOrCollision(hash, r1, c1, c2);
      if Collides(hash, RawId(hash, r1, c1), RawId(hash, r2, c2)) {
        i, j := |c1|, |c2|;
        assert c1[..i] == c1 && c2[..j] == c2;
      } else {
        var b1, b2 := c1[..|c1| - 1], c2[..|c2| - 1];
        i, j := FirstDifference(hash, r1, b1, r2, b2);
        if i == 0 || j == 0 {
          SameCalls(c1, c2);
        } else {
          PrefixOfPrefix(c1, i);
          PrefixOfPrefix(c2, j);
        }
      }
    }
  }

  /** Replay identity.  Two operations anywhere, under any roots, with the same
      id are the same operation, unless the hash gave two of the ids on the way
      the same value. */
  lemma IdsAreUnique(hash: string -> string, r1: Id, c1: seq<Call>, r2: Id, c2: seq<Call>)
    requires ValidRoot(r1) && ValidRoot(r2) && Hashing(hash)
    requires IdAfter(hash, r1, c1) == IdAfter(hash, r2, c2)
    ensures (r1 == r2 && c1 == c2) || Collision(hash, r1, c1, r2, c2)
  {
    var i, j := FirstDifference(hash, r1, c1, r2, c2);
  }

  // ---------------------------------------------------------------------
  //  What the server accepts
  // ---------------------------------------------------------------------

  /** The lineage tags of a create request. */
  datatype Minted = Minted(id: Id, origin: Id, branch: Id, parent: Id)

  predicate Extends(id: Id, ancestor: Id) {
    id == ancestor || ancestor + [if ORIGIN_SEP in ancestor then LINEAGE_SEP else ORIGIN_SEP] <= id
  }

  /** The server's own rules for a create request. */
  predicate ServerAccepts(m: Minted) {
    && '\0' !in m.id
    && ORIGIN_SEP !in m.origin
    && (m.id == m.origin || m.origin + [ORIGIN_SEP] <= m.id)
    && Extends(m.id, m.branch)
    && Extends(m.id, m.parent)
  }

  datatype Kind = LocalRun | RemoteCall | DetachedCall

  /** The ids a context keeps; its branch is always its own id. */
  datatype ContextIds = ContextIds(id: Id, origin: Id, branch: Id)

  function RootContext(id: Id, origin: Id): ContextIds { ContextIds(id, origin, id) }

  /** The request of the context's `n`-th operation. */
  function Mint(hash: string -> string, ctx: ContextIds, n: nat, kind: Kind): Minted {
    var next := JoinId(ctx.id, Decimal(n));
    match kind
    case LocalRun => Minted(next, ctx.origin, ctx.branch, ctx.id)
    case RemoteCall => Minted(next, ctx.origin, next, ctx.id)
    case DetachedCall =>
      var id := JoinId(ctx.origin, "d" + hash(next));
      Minted(id, ctx.origin, id, ctx.origin)
  }

  datatype Op = Op(n: nat, kind: Kind)

  /** The context some nesting of operations leads to.  A local child is built
      by the parent, a remote or detached one by the worker that picks it up;
      both carry the origin along. */
  function ContextAfter(hash: string -> string, root: Id, ops: seq<Op>): ContextIds {
    if ops == [] then RootContext(root, root)
    else
      var ctx := ContextAfter(hash, root, ops[..|ops| - 1]);
      var last := ops[|ops| - 1];
      RootContext(Mint(hash, ctx, last.n, last.kind).id, ctx.origin)
  }

  function CallOf(o: Op): Call { if o.kind.DetachedCall? then Detached(o.n) else Child(o.n) }

  function CallsOf(ops: seq<Op>): seq<Call> {
    if ops == [] then [] else CallsOf(ops[..|ops| - 1]) + [CallOf(ops[|ops| - 1])]
  }

  lemma EncodeSnoc(root: Id, path: seq<string>, segment: string)
    ensures Encode(Lineage(root, path + [segment])) == JoinId(Encode(Lineage(root, path)), segment)
  {
    assert (path + [segment])[..|path|] == path;
  }

  /** The ids contexts mint are the ids the uniqueness result speaks of. */
  lemma {:induction false} ContextsFollowCalls(hash: string -> string, root: Id, ops: seq<Op>)
    ensures ContextAfter(hash, root, ops) == RootContext(IdAfter(hash, root, CallsOf(ops)), root)
  {
    if ops != [] {
      var before, last := ops[..|ops| - 1], ops[|ops| - 1];
      ContextsFollowCalls(hash, root, before);
      var path := PathAfter(hash, root, CallsOf(before));
      EncodeSnoc(root, path, Decimal(last.n));
      var raw := Encode(Lineage(root, path + [Decimal(last.n)]));
      EncodeSnoc(root, [], "d" + hash(raw));
      assert [] + ["d" + hash(raw)] == ["d" + hash(raw)];
      assert CallsOf(ops)[..|CallsOf(ops)| - 1] == CallsOf(before);
    }
  }

  lemma JoinExtends(ancestor: Id, segment: string)
    ensures Extends(JoinId(ancestor, segment), ancestor)
  {
    var sep := [if ORIGIN_SEP in ancestor then LINEAGE_SEP else ORIGIN_SEP];
    assert JoinId(ancestor, segment)[..|ancestor + sep|] == ancestor + sep;
  }

  lemma LineageStartsWithOrigin(l: Lineage)
    requires WellFormed(l)
    ensures '\0' !in Encode(l)
    ensures l.path != [] ==> l.root + [ORIGIN_SEP] <= Encode(l)
  {
    EncodeIs(l);
    if l.path != [] {
      DottedHoldsNoNull(l.path);
      assert Encode(l)[..|l.root| + 1] == l.root + [ORIGIN_SEP];
    }
  }

  lemma {:induction false} DottedHoldsNoNull(path: seq<string>)
    requires path != [] && forall s | s in path :: Segment(s)
    ensures '\0' !in Dotted(path)
  {
    assert path[|path| - 1] in path;
    if |path| > 1 {
      DottedHoldsNoNull(path[..|path| - 1]);
    }
  }

  /** Every create request minted at any depth below a validated root meets the
      server's origin, branch and parent rules. */
  lemma MintedIsAccepted(hash: string -> string, root: Id, ops: seq<Op>, n: nat, kind: Kind)
    requires ValidRoot(root) && Hashing(hash)
    ensures ServerAccepts(Mint(hash, ContextAfter(hash, root, ops), n, kind))
  {
    var ctx := ContextAfter(hash, root, ops);
    var all := ops + [Op(n, kind)];
    assert all[..|ops|] == ops;
    ContextsFollowCalls(hash, root, ops);
    ContextsFollowCalls(hash, root, all);
    PathsAreSegments(hash, root, CallsOf(all));
    LineageStartsWithOrigin(Lineage(root, PathAfter(hash, root, CallsOf(all))));
    JoinExtends(ctx.id, Decimal(n));
    JoinExtends(ctx.origin, "d" + hash(JoinId(ctx.id, Decimal(n))));
  }

  /** Whose branch a request is on.  A context is its own branch, and a local run stays on
      it, so the context's preload brings it along; a remote call and a detached one each
      start a branch of their own.  The parent is the context, but for a detached call,
      which hangs off the origin; the origin is always the root. */
  lemma BranchesFollowContexts(hash: string -> string, root: Id, ops: seq<Op>, n: nat, kind: Kind)
    ensures var ctx, m := ContextAfter(hash, root, ops), Mint(hash, ContextAfter(hash, root, ops), n, kind);
            && ctx.branch == ctx.id && m.origin == root
            && (kind.LocalRun? ==> m.branch == ctx.id)
            && (!kind.LocalRun? ==> m.branch == m.id)
            && (m.parent == if kind.DetachedCall? then root else ctx.id)
            && m.id == IdAfter(hash, root, CallsOf(ops + [Op(n, kind)]))
  {
    ContextsFollowCalls(hash, root, ops);
    ContextsFollowCalls(hash, root, ops + [Op(n, kind)]);
    assert (ops + [Op(n, kind)])[..|ops|] == ops;
  }

  /** What ids look like: the first segment comes after a colon, every further one after
      a dot. */
  lemma IdsLookLike(root: Id, first: string, second: string)
    requires ORIGIN_SEP !in root
    ensures JoinId(root, first) == root + ":" + first
    ensures JoinId(JoinId(root, first), second) == root + ":" + first + "." + second
  {
    assert JoinId(root, first)[|root|] == ':';
  }

  /** A detached call's id is never that of a numbered call, whatever the hash. */
  lemma DetachedIsNeverNumbered(hash: string -> string, r1: Id, c1: seq<Call>, r2: Id, c2: seq<Call>)
    requires ValidRoot(r1) && ValidRoot(r2) && Hashing(hash) && c1 != [] && c2 != []
    requires c1[|c1| - 1].Child? && c2[|c2| - 1].Detached?
    ensures IdAfter(hash, r1, c1) != IdAfter(hash, r2, c2)
  {
    PathsAreSegments(hash, r1, c1);
    PathsAreSegments(hash, r2, c2);
    DecodeEncode(Lineage(r1, PathAfter(hash, r1, c1)));
    DecodeEncode(Lineage(r2, PathAfter(hash, r2, c2)));
    LastSegment(hash, r1, c1);
    LastSegment(hash, r2, c2);
  }
}
