/**
 Glob patterns over cache keys: the matcher, the grammar of the accepted tenant patterns, and what an
 accepted pattern can reach. `*` is the only metacharacter an accepted pattern can hold.
 */
module GlobPatterns {
  /** `*` stands for any text, every other character for itself. */
  predicate Match(p: string, k: string)
    decreases |p| + |k|
  {
    if p == "" then k == ""
    else if p[0] == '*' then Match(p[1..], k) || (k != "" && Match(p, k[1..]))
    else k != "" && k[0] == p[0] && Match(p[1..], k[1..])
  }

  lemma {:induction false} LiteralPrefix(lit: string, rest: string, k: string)
    requires '*' !in lit
    ensures Match(lit + rest, k) <==> lit <= k && Match(rest, k[|lit|..])
    decreases |lit|
  {
    if lit == "" {
      assert lit + rest == rest && k[0..] == k;
    } else {
      assert lit == [lit[0]] + lit[1..];
      assert (lit + rest)[1..] == lit[1..] + rest;
      if k != "" && k[0] == lit[0] {
        LiteralPrefix(lit[1..], rest, k[1..]);
        assert lit <= k <==> lit[1..] <= k[1..];
        assert lit <= k ==> k[1..][|lit| - 1..] == k[|lit|..];
      }
    }
  }

  lemma {:induction false} StarMatchesAll(k: string)
    ensures Match("*", k)
    decreases |k|
  {
    if k != "" {
      StarMatchesAll(k[1..]);
    }
  }

  /** A star and then the rest: the rest matches from some place on. */
  lemma {:induction false} StarThen(rest: string, k: string)
    ensures Match("*" + rest, k) <==> exists i :: 0 <= i <= |k| && Match(rest, k[i..])
    decreases |k|
  {
    assert ("*" + rest)[1..] == rest && k[0..] == k;
    if k != "" {
      StarThen(rest, k[1..]);
      if i :| 0 <= i <= |k| - 1 && Match(rest, k[1..][i..]) {
        assert k[1..][i..] == k[i + 1..];
      }
      if i :| 0 < i <= |k| && Match(rest, k[i..]) {
        assert k[1..][i - 1..] == k[i..];
      }
    }
  }

  /** A literal and then a star: a prefix. */
  lemma PrefixPattern(lit: string, k: string)
    requires '*' !in lit
    ensures Match(lit + "*", k) <==> lit <= k
  {
    LiteralPrefix(lit, "*", k);
    if lit <= k {
      StarMatchesAll(k[|lit|..]);
    }
  }

  // ---------- segments ----------

  function Split(s: string): (parts: seq<string>)
    ensures parts != []
  {
    if s == "" then [""]
    else
      var parts := Split(s[1..]);
      if s[0] == ':' then [""] + parts else [[s[0]] + parts[0]] + parts[1..]
  }

  lemma {:induction false} SplitNoColon(s: string)
    requires ':' !in s
    ensures Split(s) == [s]
  {
    if s != "" {
      SplitNoColon(s[1..]);
      assert s[0] in s && s == [s[0]] + s[1..];
    }
  }

  lemma {:induction false} SplitAt(a: string, b: string)
    requires ':' !in a
    ensures Split(a + ":" + b) == [a] + Split(b)
  {
    var s := a + ":" + b;
    if a == "" {
      assert s[1..] == b;
    } else {
      assert s[1..] == a[1..] + ":" + b && s[0] == a[0] && a[0] in a;
      SplitAt(a[1..], b);
      assert a == [a[0]] + a[1..];
    }
  }

  /** With two segments or more, a text is its first segment, a colon, and the rest. */
  lemma {:induction false} FirstSegment(s: string)
    ensures ':' !in Split(s)[0]
    ensures |Split(s)| >= 2 ==> Split(s)[0] + ":" <= s
  {
    if s != "" {
      FirstSegment(s[1..]);
      if s[0] != ':' && |Split(s)| >= 2 {
        assert s == [s[0]] + s[1..];
      }
    }
  }

  // ---------- the grammar ----------

  predicate SafeChar(c: char) {
    'A' <= c <= 'Z' || 'a' <= c <= 'z' || '0' <= c <= '9' || c == '.' || c == '_' || c == '-'
  }

  predicate Literal(s: string) {
    s != "" && forall i | 0 <= i < |s| :: SafeChar(s[i])
  }

  predicate SafeTenant(t: string) {
    Literal(t) && |t| <= 128
  }

  /** `$` also matches before one closing newline. */
  function Unterminated(s: string): string {
    if s != "" && s[|s| - 1] == '\n' then s[..|s| - 1] else s
  }

  const CACHE: string := "cache:"

  /** A tenant, then one to eight segments, each a literal or a lone star. */
  predicate Shaped(parts: seq<string>) {
    && 2 <= |parts| <= 9
    && SafeTenant(parts[0])
    && forall i | 1 <= i < |parts| :: parts[i] == "*" || Literal(parts[i])
  }

  /** The guard of `delete_pattern`. */
  predicate Accepted(p: string) {
    var q := Unterminated(p);
    CACHE <= q && Shaped(Split(q[|CACHE|..]))
  }

  /** `_is_safe_tenant_id`. */
  predicate TenantPasses(t: string) {
    SafeTenant(Unterminated(t))
  }

  /** The check on the entity name. */
  predicate HasMeta(s: string) {
    exists i :: 0 <= i < |s| && s[i] in "*?[]\\:"
  }

  function TenantOf(p: string): string
    requires Accepted(p)
  {
    Split(Unterminated(p)[|CACHE|..])[0]
  }

  /** Every character is a colon or in a segment. */
  lemma {:induction false} SplitCovers(s: string, c: char)
    requires c in s && c != ':'
    ensures exists i :: 0 <= i < |Split(s)| && c in Split(s)[i]
  {
    var parts, rest := Split(s), Split(s[1..]);
    if s[0] == c {
      assert c in parts[0];
    } else {
      assert s == [s[0]] + s[1..];
      SplitCovers(s[1..], c);
      var i :| 0 <= i < |rest| && c in rest[i];
      if s[0] == ':' {
        assert parts[i + 1] == rest[i];
      } else {
        assert c in parts[i];
      }
    }
  }

  /** An accepted pattern holds no metacharacter but the star. */
  lemma OnlyStars(p: string)
    requires Accepted(p)
    ensures '?' !in p && '[' !in p
  {
    var q := Unterminated(p);
    var body := q[|CACHE|..];
    assert q == CACHE + body;
    forall c | c == '?' || c == '['
      ensures c !in p
    {
      if c in body {
        SplitCovers(body, c);
      }
      assert c in p ==> c in q;
      assert c !in CACHE;
    }
  }

  // ---------- what the grammar generates ----------

  /** By their ASCII codes: capital and small letters, digits, and hyphen, dot and underscore. */
  predicate Word(s: string) {
    s != "" && forall i | 0 <= i < |s| ::
      var code := s[i] as int; 65 <= code <= 90 || 97 <= code <= 122 || 48 <= code <= 57 || code in {45, 46, 95}
  }

  /** Segments, each behind a colon. */
  function Join(segments: seq<string>): string {
    if segments == [] then "" else ":" + segments[0] + Join(segments[1..])
  }

  predicate WordsOrStars(segments: seq<string>) {
    forall i | 0 <= i < |segments| :: segments[i] == "*" || Word(segments[i])
  }

  /** A pattern of the grammar: a tenant of at most 128 characters and one to eight words or stars. */
  ghost predicate Generated(p: string) {
    exists t: string, segments: seq<string> ::
      Word(t) && |t| <= 128 && 1 <= |segments| <= 8 && WordsOrStars(segments) && p == CACHE + (t + Join(segments))
  }

  lemma WordIffLiteral(s: string)
    ensures Word(s) <==> Literal(s)
  {
  }

  /** A segment of a generated pattern has no colon, and ends in no newline. */
  lemma PlainSegment(s: string)
    requires s == "*" || Word(s)
    ensures ':' !in s && s != "" && '\n' !in s
  {
    if s != "*" {
      WordIffLiteral(s);
      PlainChars(s);
    }
  }

  lemma {:induction false} SplitOfJoin(first: string, segments: seq<string>)
    requires ':' !in first && WordsOrStars(segments)
    ensures Split(first + Join(segments)) == [first] + segments
    decreases |segments|
  {
    hide Split, Join, Word;
    if segments == [] {
      NoSegments();
      assert first + Join(segments) == first;
      SplitNoColon(first);
    } else {
      PlainSegment(segments[0]);
      RestOfWords(segments);
      OneSegment(segments);
      var rest := segments[0] + Join(segments[1..]);
      SplitOfJoin(segments[0], segments[1..]);
      SplitAt(first, rest);
      assert first + Join(segments) == first + ":" + rest;
    }
  }

  lemma {:induction false} JoinOfSplit(s: string)
    ensures s == Split(s)[0] + Join(Split(s)[1..])
  {
    hide Join;
    if s == "" {
      NoSegments();
      assert Split(s) == [""] && [""][1..] == [];
    } else {
      var parts, all := Split(s[1..]), Split(s);
      JoinOfSplit(s[1..]);
      assert s == [s[0]] + s[1..];
      if s[0] == ':' {
        assert all[0] == "" && all[1..] == parts;
        OneSegment(parts);
        assert ":" + parts[0] + Join(parts[1..]) == ":" + (parts[0] + Join(parts[1..]));
      } else {
        assert all[0] == [s[0]] + parts[0] && all[1..] == parts[1..];
        assert [s[0]] + parts[0] + Join(parts[1..]) == [s[0]] + (parts[0] + Join(parts[1..]));
      }
    }
  }

  lemma NoSegments()
    ensures Join([]) == ""
  {
  }

  lemma OneSegment(segments: seq<string>)
    requires segments != []
    ensures Join(segments) == ":" + segments[0] + Join(segments[1..])
  {
  }

  lemma {:induction false} LastIsPlain(first: string, segments: seq<string>)
    requires first != "" && '\n' !in first && WordsOrStars(segments)
    ensures var p := first + Join(segments); p[|p| - 1] != '\n'
    decreases |segments|
  {
    hide Word, Join;
    if segments == [] {
      NoSegments();
      assert first + Join(segments) == first;
    } else {
      PlainSegment(segments[0]);
      OneSegment(segments);
      RestOfWords(segments);
      var longer := first + ":" + segments[0];
      assert longer + Join(segments[1..]) == first + Join(segments);
      LastIsPlain(longer, segments[1..]);
    }
  }

  lemma RestOfWords(segments: seq<string>)
    requires segments != [] && WordsOrStars(segments)
    ensures WordsOrStars(segments[1..])
  {
    assert forall i | 0 <= i < |segments| - 1 :: segments[1..][i] == segments[i + 1];
  }

  lemma ShapedIff(t: string, segments: seq<string>)
    ensures Shaped([t] + segments) <==> Word(t) && |t| <= 128 && 1 <= |segments| <= 8 && WordsOrStars(segments)
  {
    var parts := [t] + segments;
    WordIffLiteral(t);
    forall i | 0 <= i < |segments|
      ensures parts[i + 1] == segments[i] && (Word(segments[i]) <==> Literal(segments[i]))
    {
      WordIffLiteral(segments[i]);
    }
    assert forall i | 1 <= i < |parts| :: parts[i] == segments[i - 1];
    hide Word, Literal;
  }

  lemma GeneratedIffShaped(q: string)
    ensures Generated(q) <==> CACHE <= q && Shaped(Split(q[|CACHE|..]))
    ensures Generated(q) ==> q != "" && q[|q| - 1] != '\n'
  {
    hide Split, Shaped, Word, WordsOrStars, Join;
    if CACHE <= q {
      var parts := Split(q[|CACHE|..]);
      JoinOfSplit(q[|CACHE|..]);
      assert q == CACHE + q[|CACHE|..];
      assert parts == [parts[0]] + parts[1..];
      ShapedIff(parts[0], parts[1..]);
    }
    if t: string, segments: seq<string> :|
      Word(t) && |t| <= 128 && 1 <= |segments| <= 8 && WordsOrStars(segments) && q == CACHE + (t + Join(segments))
    {
      PlainSegment(t);
      SplitOfJoin(t, segments);
      assert q[|CACHE|..] == t + Join(segments);
      ShapedIff(t, segments);
      assert CACHE + (t + Join(segments)) == (CACHE + t) + Join(segments);
      LastIsPlain(CACHE + t, segments);
    }
  }

  /** The guard admits exactly the patterns of the grammar, with or without a closing newline. */
  lemma AcceptedIffGenerated(p: string)
    ensures Accepted(p) <==> Generated(p) || (p != "" && p[|p| - 1] == '\n' && Generated(p[..|p| - 1]))
  {
    hide Split, Shaped, Generated;
    GeneratedIffShaped(p);
    GeneratedIffShaped(Unterminated(p));
    assert p != "" && p[|p| - 1] == '\n' ==> Unterminated(p) == p[..|p| - 1];
  }

  // ---------- isolation ----------

  function Namespace(t: string): string {
    CACHE + t + ":"
  }

  lemma PlainChars(s: string)
    requires forall i | 0 <= i < |s| :: SafeChar(s[i])
    ensures ':' !in s && '*' !in s && '\n' !in s && '?' !in s && '[' !in s
  {
  }

  lemma StartsWithTenant(p: string)
    requires Accepted(p)
    ensures Namespace(TenantOf(p)) <= p && '*' !in Namespace(TenantOf(p))
  {
    var t := TenantOf(p);
    var body := Unterminated(p)[|CACHE|..];
    FirstSegment(body);
    PlainChars(t);
    assert Namespace(t) == CACHE + (t + ":");
    assert Unterminated(p) == CACHE + body && Unterminated(p) <= p;
  }

  /** Whatever an accepted pattern matches lies in the namespace of its own tenant. */
  lemma Isolation(p: string, k: string)
    requires Accepted(p) && Match(p, k)
    ensures Namespace(TenantOf(p)) <= k
  {
    hide Match, Accepted, Namespace, TenantOf;
    var lit := Namespace(TenantOf(p));
    StartsWithTenant(p);
    assert p == lit + p[|lit|..];
    LiteralPrefix(lit, p[|lit|..], k);
  }

  /** Two tenants' namespaces have no key in common. */
  lemma NamespacesDisjoint(t: string, u: string, k: string)
    requires SafeTenant(t) && SafeTenant(u) && Namespace(t) <= k && Namespace(u) <= k
    ensures t == u
  {
    PlainChars(t);
    PlainChars(u);
    var rest := k[|CACHE|..];
    assert k == CACHE + rest;
    FirstOf(t, rest);
    FirstOf(u, rest);
  }

  lemma SamePrefix(a: string, b: string, c: string)
    requires a + b <= a + c
    ensures b <= c
  {
    assert b == (a + b)[|a|..] && c == (a + c)[|a|..];
  }

  lemma FirstOf(t: string, rest: string)
    requires ':' !in t && Namespace(t) <= CACHE + rest
    ensures Split(rest)[0] == t
  {
    assert Namespace(t) == CACHE + (t + ":");
    SamePrefix(CACHE, t + ":", rest);
    assert rest == t + ":" + rest[|t| + 1..];
    SplitAt(t, rest[|t| + 1..]);
  }

  // ---------- the patterns of the invalidations ----------

  function EntityPattern(t: string, e: string): string {
    CACHE + t + ":" + e + ":*"
  }

  function TenantPattern(t: string): string {
    CACHE + t + ":*"
  }

  function RolePattern(t: string, e: string): string {
    CACHE + t + ":*:" + e + ":*"
  }

  predicate InEntity(t: string, e: string, k: string) {
    Namespace(t) + e + ":" <= k
  }

  /** Some text between tenant and entity: a role, or several segments. */
  ghost predicate InRoleVariant(t: string, e: string, k: string) {
    exists n :: 0 <= n && Between(t, e, k, n)
  }

  predicate Between(t: string, e: string, k: string, n: int)
    requires 0 <= n
  {
    |Namespace(t)| + n <= |k| && Namespace(t) <= k && ":" + e + ":" <= k[|Namespace(t)| + n..]
  }

  /** The entity and role patterns are accepted exactly for a safe tenant and a safe entity. */
  lemma PatternsAccepted(t: string, e: string)
    requires ':' !in t && ':' !in e && '*' !in e
    ensures Accepted(EntityPattern(t, e)) <==> SafeTenant(t) && Literal(e)
    ensures Accepted(RolePattern(t, e)) <==> SafeTenant(t) && Literal(e)
    ensures Accepted(TenantPattern(t)) <==> SafeTenant(t)
  {
    ThreeParts(t, e);
    FourParts(t, e);
    TwoParts(t);
  }

  lemma ThreeParts(t: string, e: string)
    requires ':' !in t && ':' !in e && '*' !in e
    ensures Accepted(EntityPattern(t, e)) <==> SafeTenant(t) && Literal(e)
  {
    var p := EntityPattern(t, e);
    assert p[|CACHE|..] == t + ":" + (e + ":" + "*");
    SplitAt(t, e + ":" + "*");
    SplitAt(e, "*");
    SplitNoColon("*");
    var rest := [e, "*"];
    PartsDecide(p, t, rest);
    assert rest[0] == e && rest[1] == "*";
    LoneStar(e);
  }

  lemma FourParts(t: string, e: string)
    requires ':' !in t && ':' !in e && '*' !in e
    ensures Accepted(RolePattern(t, e)) <==> SafeTenant(t) && Literal(e)
  {
    var p := RolePattern(t, e);
    assert p[|CACHE|..] == t + ":" + ("*" + ":" + (e + ":" + "*"));
    SplitAt(t, "*" + ":" + (e + ":" + "*"));
    SplitAt("*", e + ":" + "*");
    SplitAt(e, "*");
    SplitNoColon("*");
    var rest := ["*", e, "*"];
    PartsDecide(p, t, rest);
    assert rest[0] == "*" && rest[1] == e && rest[2] == "*";
    LoneStar(e);
  }

  lemma TwoParts(t: string)
    requires ':' !in t
    ensures Accepted(TenantPattern(t)) <==> SafeTenant(t)
  {
    var p := TenantPattern(t);
    assert p[|CACHE|..] == t + ":" + "*";
    SplitAt(t, "*");
    SplitNoColon("*");
    PartsDecide(p, t, ["*"]);
  }

  lemma PartsDecide(p: string, t: string, rest: seq<string>)
    requires CACHE <= p && p[|p| - 1] == '*' && Split(p[|CACHE|..]) == [t] + rest && 1 <= |rest| <= 8
    ensures Accepted(p) <==> SafeTenant(t) && forall i | 0 <= i < |rest| :: rest[i] == "*" || Literal(rest[i])
  {
    hide Split, Literal, SafeTenant;
    var parts := [t] + rest;
    assert forall i | 1 <= i < |parts| :: parts[i] == rest[i - 1];
    assert forall i | 0 <= i < |rest| :: rest[i] == parts[i + 1];
  }

  lemma LoneStar(e: string)
    requires '*' !in e
    ensures e != "*"
  {
    assert '*' in "*";
  }

  /** The entity pattern reaches exactly the keys of the entity. */
  lemma EntityPatternReaches(t: string, e: string, k: string)
    requires SafeTenant(t) && Literal(e)
    ensures Match(EntityPattern(t, e), k) <==> InEntity(t, e, k)
  {
    PlainChars(t);
    PlainChars(e);
    assert EntityPattern(t, e) == Namespace(t) + e + ":" + "*";
    PrefixPattern(Namespace(t) + e + ":", k);
  }

  lemma TenantPatternReaches(t: string, k: string)
    requires SafeTenant(t)
    ensures Match(TenantPattern(t), k) <==> Namespace(t) <= k
  {
    PlainChars(t);
    assert TenantPattern(t) == Namespace(t) + "*";
    PrefixPattern(Namespace(t), k);
  }

  /** The role pattern reaches the keys with any text between tenant and entity, colons included. */
  lemma RolePatternReaches(t: string, e: string, k: string)
    requires SafeTenant(t) && Literal(e)
    ensures Match(RolePattern(t, e), k) <==> InRoleVariant(t, e, k)
  {
    PlainChars(t);
    PlainChars(e);
    var head, tail := Namespace(t), ":" + e + ":";
    assert RolePattern(t, e) == head + ("*" + (tail + "*"));
    LiteralPrefix(head, "*" + (tail + "*"), k);
    if head <= k {
      var rest := k[|head|..];
      StarThen(tail + "*", rest);
      forall i | 0 <= i <= |rest|
        ensures Match(tail + "*", rest[i..]) <==> Between(t, e, k, i)
      {
        PrefixPattern(tail, rest[i..]);
        assert rest[i..] == k[|head| + i..];
      }
    }
  }

  // ---------- the keys the cache writes ----------

  function PlainKey(t: string, e: string, hash: string): string {
    CACHE + t + ":" + e + ":" + hash
  }

  function RoleKey(t: string, role: string, e: string, hash: string): string {
    CACHE + (t + ":r=" + role) + ":" + e + ":" + hash
  }

  lemma KeysAreReached(t: string, e: string, role: string, hash: string)
    ensures InEntity(t, e, PlainKey(t, e, hash))
    ensures InRoleVariant(t, e, RoleKey(t, role, e, hash))
  {
    assert PlainKey(t, e, hash) == Namespace(t) + e + ":" + hash;
    var k, n := RoleKey(t, role, e, hash), |"r=" + role|;
    assert k == Namespace(t) + ("r=" + role) + (":" + e + ":" + hash);
    assert k[|Namespace(t)| + n..] == ":" + e + ":" + hash;
    assert Between(t, e, k, n);
  }

  /** Plain invalidation leaves the role-aware keys of every entity. */
  lemma RoleKeysSurvivePlain(t: string, e: string, role: string, f: string, hash: string)
    requires SafeTenant(t) && Literal(e)
    ensures !InEntity(t, e, RoleKey(t, role, f, hash))
  {
    var k := RoleKey(t, role, f, hash);
    assert k == Namespace(t) + ("r=" + role + ":" + f + ":" + hash);
    var n := |Namespace(t)|;
    var lit := Namespace(t) + e + ":";
    assert k[n] == 'r' && k[n + 1] == '=';
    assert lit[n] == e[0];
    assert |e| >= 2 ==> lit[n + 1] == e[1] && SafeChar(e[1]);
    assert |e| == 1 ==> lit[n + 1] == ':';
  }

  /** What the comment on role variants promises: one whole segment between tenant and entity. */
  ghost predicate IsRoleVariant(t: string, e: string, k: string) {
    exists segment, hash :: ':' !in segment && k == VariantKey(t, segment, e, hash)
  }

  function VariantKey(t: string, segment: string, e: string, hash: string): string {
    Namespace(t) + segment + (":" + e + ":" + hash)
  }

  lemma SplitBetween(t: string, e: string, k: string, n: nat)
    requires Between(t, e, k, n)
    ensures var at := |Namespace(t)|;
            k == VariantKey(t, k[at..at + n], e, k[at + n + |e| + 2..])
  {
    var at, middle := |Namespace(t)|, ":" + e + ":";
    assert k[at + n..][..|middle|] == middle;
    assert k == k[..at] + k[at..at + n] + (k[at + n..][..|middle|] + k[at + n..][|middle|..]);
    assert k[at + n..][|middle|..] == k[at + n + |middle|..];
    assert middle + k[at + n + |middle|..] == ":" + e + ":" + k[at + n + |e| + 2..];
  }

  lemma VariantBetween(t: string, segment: string, e: string, hash: string)
    ensures var k := VariantKey(t, segment, e, hash);
            Between(t, e, k, |segment|) && k[|Namespace(t)|..|Namespace(t)| + |segment|] == segment
  {
    var k := VariantKey(t, segment, e, hash);
    assert k == Namespace(t) + (segment + (":" + e + ":" + hash));
    assert k[|Namespace(t)| + |segment|..] == ":" + e + ":" + hash;
  }

  /** A matched key is a role variant exactly when some text between tenant and entity holds no colon. */
  lemma RoleVariantIffOneSegment(t: string, e: string, k: string)
    ensures IsRoleVariant(t, e, k) <==>
            exists n: nat :: Between(t, e, k, n) && ':' !in k[|Namespace(t)|..|Namespace(t)| + n]
  {
    hide VariantKey, Namespace;
    if IsRoleVariant(t, e, k) {
      var segment, hash :| ':' !in segment && k == VariantKey(t, segment, e, hash);
      VariantBetween(t, segment, e, hash);
    }
    if n: nat :| Between(t, e, k, n) && ':' !in k[|Namespace(t)|..|Namespace(t)| + n] {
      SplitBetween(t, e, k, n);
    }
  }

  /** The text occurs at this place. */
  predicate OccursAt(s: string, text: string, i: nat) {
    i <= |s| && text <= s[i..]
  }

  lemma PlainBetween(t: string, e: string, f: string, hash: string, n: nat)
    requires ':' !in f
    ensures Between(t, e, PlainKey(t, f, hash), n) <==> |f| <= n && OccursAt(":" + hash, ":" + e + ":", n - |f|)
  {
    var k, at := PlainKey(t, f, hash), |Namespace(t)|;
    assert k == Namespace(t) + (f + (":" + hash));
    assert k[at..] == f + (":" + hash);
    if n < |f| {
      assert k[at + n..][0] == f[n] && f[n] in f;
    } else if at + n <= |k| {
      assert k[at + n..] == (":" + hash)[n - |f|..];
    }
  }

  lemma UpToTheEntity(t: string, f: string, hash: string, n: nat)
    requires ':' !in f && |Namespace(t)| + n <= |PlainKey(t, f, hash)|
    ensures var at := |Namespace(t)|;
            |f| <= n ==> (':' !in PlainKey(t, f, hash)[at..at + n] <==> n == |f|)
  {
    var k, at := PlainKey(t, f, hash), |Namespace(t)|;
    assert k == Namespace(t) + f + (":" + hash);
    if n == |f| {
      assert k[at..at + n] == f;
    } else if |f| < n {
      assert k[at..at + n][|f|] == ':';
    }
  }

  /**
   The role pattern takes keys of another entity exactly when they mention the name as a later segment; only
   those that mention it at once are role variants.
   */
  lemma RolePatternTakesMore(t: string, e: string, f: string, hash: string)
    requires ':' !in f
    ensures InRoleVariant(t, e, PlainKey(t, f, hash)) <==> exists i: nat :: OccursAt(":" + hash, ":" + e + ":", i)
    ensures IsRoleVariant(t, e, PlainKey(t, f, hash)) <==> OccursAt(":" + hash, ":" + e + ":", 0)
  {
    hide Between, PlainKey, OccursAt, IsRoleVariant, Literal, Namespace;
    var k, at := PlainKey(t, f, hash), |Namespace(t)|;
    forall n: nat
      ensures Between(t, e, k, n) <==> |f| <= n && OccursAt(":" + hash, ":" + e + ":", n - |f|)
    {
      PlainBetween(t, e, f, hash, n);
    }
    if i: nat :| OccursAt(":" + hash, ":" + e + ":", i) {
      assert i == |f| + i - |f|;
      assert Between(t, e, k, |f| + i);
    }
    RoleVariantIffOneSegment(t, e, k);
    forall n: nat | Between(t, e, k, n)
      ensures at + n <= |k| && (':' !in k[at..at + n] <==> n == |f|)
    {
      BetweenFits(t, e, k, n);
      UpToTheEntity(t, f, hash, n);
    }
    if OccursAt(":" + hash, ":" + e + ":", 0) {
      assert |f| - |f| == 0;
      assert Between(t, e, k, |f|) && ':' !in k[at..at + |f|];
    }
  }

  lemma BetweenFits(t: string, e: string, k: string, n: nat)
    requires Between(t, e, k, n)
    ensures |Namespace(t)| + n <= |k|
  {
  }

  /** Such a key: a dashboard entry whose text begins with the name of another entity. */
  lemma SomeKeyIsTakenToo()
    ensures InRoleVariant("t", "rooms", PlainKey("t", "dashboard", "all:rooms:1"))
    ensures !IsRoleVariant("t", "rooms", PlainKey("t", "dashboard", "all:rooms:1"))
  {
    var k := ":" + "all:rooms:1";
    assert k[4..] == ":rooms:1";
    assert OccursAt(k, ":" + "rooms" + ":", 4);
    assert k[1] == 'a' && (":" + "rooms" + ":")[1] == 'r';
    RolePatternTakesMore("t", "rooms", "dashboard", "all:rooms:1");
  }
}
