/** The string operations the handlers rely on, and the Redis keys of internal/cache/keys.go. */
module Text {

  /** White space as Go's unicode.IsSpace defines it. */
  predicate IsSpace(c: char) {
    || '\t' <= c <= '\r' || c == ' ' || c == '\U{85}' || c == '\U{A0}' || c == '\U{1680}'
    || '\U{2000}' <= c <= '\U{200A}' || c == '\U{2028}' || c == '\U{2029}' || c == '\U{202F}'
    || c == '\U{205F}' || c == '\U{3000}'
  }

  function TrimLeft(s: string): string {
    if s != [] && IsSpace(s[0]) then TrimLeft(s[1..]) else s
  }

  function TrimRight(s: string): (r: string)
    ensures r <= s
    ensures r != [] ==> !IsSpace(r[|r| - 1])
  {
    if s != [] && IsSpace(s[|s| - 1]) then TrimRight(s[..|s| - 1]) else s
  }

  function TrimSpace(s: string): string {
    TrimRight(TrimLeft(s))
  }

  function LowerChar(c: char): char {
    if 'A' <= c <= 'Z' then c + 32 as char else c
  }

  function ToLower(s: string): (r: string)
    ensures |r| == |s|
  {
    seq(|s|, i requires 0 <= i < |s| => LowerChar(s[i]))
  }

  function UnderscoresToDashes(s: string): (r: string)
    ensures |r| == |s|
  {
    seq(|s|, i requires 0 <= i < |s| => if s[i] == '_' then '-' else s[i])
  }

  const TARGETS_PREFIX := "proxy:model:targets:"
  const ROUND_ROBIN_PREFIX := "proxy:model:rr:"

  function ModelTargetsKey(model: string): string {
    TARGETS_PREFIX + ToLower(model)
  }

  function ModelRoundRobinKey(model: string): string {
    ROUND_ROBIN_PREFIX + ToLower(model)
  }

  /** net.JoinHostPort: a host with a colon (IPv6) is put in brackets. */
  function JoinHostPort(host: string, port: string): string {
    if ':' in host then "[" + host + "]:" + port else host + ":" + port
  }

  // ----- What the operations above compute -----

  /** The white space of the Unicode standard's White_Space property. */
  lemma SpacesAre(c: char)
    ensures IsSpace(c) <==>
              c in "\t\n\U{0B}\U{0C}\r \U{85}\U{A0}\U{1680}\U{2000}\U{2001}\U{2002}\U{2003}\U{2004}\U{2005}\U{2006}" ||
              c in "\U{2007}\U{2008}\U{2009}\U{200A}\U{2028}\U{2029}\U{202F}\U{205F}\U{3000}"
  {
  }

  lemma {:induction false} LeadingSpaces(s: string) returns (i: nat)
    ensures i <= |s| && TrimLeft(s) == s[i..] && forall k :: 0 <= k < i ==> IsSpace(s[k])
    ensures i < |s| ==> !IsSpace(s[i])
  {
    if s != [] && IsSpace(s[0]) {
      i := LeadingSpaces(s[1..]);
      i := i + 1;
    } else {
      i := 0;
    }
  }

  lemma {:induction false} TrailingSpaces(s: string) returns (j: nat)
    ensures j <= |s| && TrimRight(s) == s[..j] && forall k :: j <= k < |s| ==> IsSpace(s[k])
  {
    if s != [] && IsSpace(s[|s| - 1]) {
      j := TrailingSpaces(s[..|s| - 1]);
    } else {
      j := |s|;
    }
  }

  /** Trimming takes away white space at both ends, all of it, and nothing else. */
  lemma TrimTakesSpaces(s: string) returns (i: nat, j: nat)
    ensures i <= j <= |s| && TrimSpace(s) == s[i..j]
    ensures forall k :: 0 <= k < i || j <= k < |s| ==> IsSpace(s[k])
    ensures i < j ==> !IsSpace(s[i]) && !IsSpace(s[j - 1])
  {
    i := LeadingSpaces(s);
    j := TrailingSpaces(s[i..]);
    j := i + j;
    assert s[i..][..j - i] == s[i..j];
    hide IsSpace, TrimLeft;
    forall k | j <= k < |s| ensures IsSpace(s[k]) {
      assert s[i..][k - i] == s[k];
    }
  }

  /** Each ASCII capital becomes its small letter, every other character stays. */
  lemma LowerIsSmall(s: string, i: nat, k: nat)
    requires i < |s|
    ensures s[i] !in "ABCDEFGHIJKLMNOPQRSTUVWXYZ" ==> ToLower(s)[i] == s[i]
    ensures k < 26 && s[i] == "ABCDEFGHIJKLMNOPQRSTUVWXYZ"[k] ==> ToLower(s)[i] == "abcdefghijklmnopqrstuvwxyz"[k]
  {
  }

  /** The keys, as Redis sees them. */
  lemma KeysAre(model: string)
    ensures ModelTargetsKey(model) == "proxy:model:targets:" + ToLower(model)
    ensures ModelRoundRobinKey(model) == "proxy:model:rr:" + ToLower(model)
  {
  }

  /** The host, in brackets if it has a colon, and behind the last colon the port. */
  lemma HostAndPort(host: string, port: string, i: nat)
    requires ':' !in port
    ensures JoinHostPort(host, port) == if ':' !in host then host + ":" + port else "[" + host + "]:" + port
    ensures var t := JoinHostPort(host, port);
            i < |t| && t[i] == ':' && ':' !in t[i + 1..] ==>
              t[i + 1..] == port && (t[..i] == if ':' !in host then host else "[" + host + "]")
  {
    var t, h := JoinHostPort(host, port), if ':' !in host then host else "[" + host + "]";
    assert t == h + ":" + port;
    assert t[|h|] == ':' && t[|h| + 1..] == port && t[..|h|] == h;
    if i < |h| && i < |t| {
      assert t[i + 1..][|h| - i - 1] == ':';
    } else if |h| < i < |t| {
      assert t[i] == port[i - |h| - 1];
    }
  }

  lemma LowerIsIdempotent(s: string)
    ensures ToLower(ToLower(s)) == ToLower(s)
  {
  }

  lemma TrimIsIdempotent(s: string)
    ensures TrimSpace(TrimSpace(s)) == TrimSpace(s)
  {
    var l := TrimLeft(s);
    TrimLeftHead(s);
    var r := TrimRight(l);
    assert r != [] ==> r[0] == l[0];
  }

  lemma TrimLeftHead(s: string)
    ensures TrimLeft(s) != [] ==> !IsSpace(TrimLeft(s)[0])
  {
  }

  lemma {:induction false} EndsInText(s: string)
    requires s != [] && !IsSpace(s[|s| - 1])
    ensures TrimSpace(s) != []
    decreases |s|
  {
    if IsSpace(s[0]) {
      EndsInText(s[1..]);
    }
  }

  /** Lower-casing leaves some text of a trimmed name. */
  lemma LowerKeepsText(s: string)
    requires s != [] && TrimSpace(s) == s
    ensures TrimSpace(ToLower(s)) != []
  {
    assert !IsSpace(s[|s| - 1]);
    EndsInText(ToLower(s));
  }

  /** Two models share their cache entry exactly when they differ in case only,
      and a list key is never a counter key. */
  lemma KeysAgreeUpToCase(a: string, b: string)
    ensures ModelTargetsKey(a) == ModelTargetsKey(b) <==> ToLower(a) == ToLower(b)
    ensures ModelRoundRobinKey(a) == ModelRoundRobinKey(b) <==> ToLower(a) == ToLower(b)
    ensures ModelTargetsKey(a) != ModelRoundRobinKey(b)
  {
    if ModelTargetsKey(a) == ModelTargetsKey(b) {
      assert ToLower(a) == ModelTargetsKey(a)[|TARGETS_PREFIX|..];
      assert ToLower(b) == ModelTargetsKey(b)[|TARGETS_PREFIX|..];
    }
    if ModelRoundRobinKey(a) == ModelRoundRobinKey(b) {
      assert ToLower(a) == ModelRoundRobinKey(a)[|ROUND_ROBIN_PREFIX|..];
      assert ToLower(b) == ModelRoundRobinKey(b)[|ROUND_ROBIN_PREFIX|..];
    }
    assert ModelTargetsKey(a)[12] == 't' && ModelRoundRobinKey(b)[12] == 'r';
  }
}
