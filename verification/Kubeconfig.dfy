/** The kubeconfig's way into and out of the clusters table: the server line is rewritten to the public address
    (internal/worker/server.go, handleProvisionClusterTask), then the text is sealed and encoded
    (internal/crypto/aes.go); a deploy or delete task reads it back (decryptKubeconfig). */
module Kubeconfig {
  import opened Common
  import opened Base64

  type ByteString = seq<Byte>

  const NEWLINE: Byte := 10

  /** The bytes of "server: https://". */
  function Server(): (s: ByteString)
    ensures |s| == 16 && NEWLINE !in s
  {
    [115, 101, 114, 118, 101, 114, 58, 32, 104, 116, 116, 112, 115, 58, 47, 47]
  }

  /** The bytes of ":16443". */
  function Port(): (s: ByteString)
    ensures |s| == 6 && NEWLINE !in s
  {
    [58, 49, 54, 52, 52, 51]
  }

  // ----- Encryption at rest -----

  /** An authenticated cipher with its key; `seal` and `open` take the nonce first. */
  datatype Aead = Aead(
    nonceSize: nat, seal: (ByteString, ByteString) -> ByteString, open: (ByteString, ByteString) -> Option<ByteString>)

  /** The one fact used about AES-GCM. */
  ghost predicate OpensWhatItSeals(a: Aead) {
    forall nonce: ByteString, plain: ByteString ::
      |nonce| == a.nonceSize ==> a.open(nonce, a.seal(nonce, plain)) == Some(plain)
  }

  function Encrypt(a: Aead, nonce: ByteString, plain: ByteString): string {
    Encode(nonce + a.seal(nonce, plain))
  }

  datatype Opened = Opened(plain: ByteString) | NotBase64 | TooShort | Rejected

  function Decrypt(a: Aead, encoded: string): Opened {
    match Decode(encoded)
    case None => NotBase64
    case Some(data) =>
      if |data| < a.nonceSize then TooShort
      else
        match a.open(data[..a.nonceSize], data[a.nonceSize..])
        case None => Rejected
        case Some(plain) => Opened(plain)
  }

  /** Decrypting undoes encrypting for every byte string and nonce, also when the stored text has been
      broken into lines. */
  lemma DecryptUndoesEncrypt(a: Aead, nonce: ByteString, plain: ByteString, stored: string)
    requires OpensWhatItSeals(a) && |nonce| == a.nonceSize
    requires SkipNewlines(stored) == Encrypt(a, nonce, plain)
    ensures Decrypt(a, stored) == Opened(plain)
  {
    var data := nonce + a.seal(nonce, plain);
    DecodeGroupsUndoesEncode(data);
    assert data[..a.nonceSize] == nonce && data[a.nonceSize..] == a.seal(nonce, plain);
  }

  /** A fresh nonce gives a different ciphertext, and two different plaintexts never give one. */
  lemma CiphertextsDiffer(a: Aead, nonce: ByteString, plain: ByteString, nonce': ByteString, plain': ByteString)
    requires OpensWhatItSeals(a) && |nonce| == |nonce'| == a.nonceSize
    ensures Encrypt(a, nonce, plain) == Encrypt(a, nonce', plain') <==> nonce == nonce' && plain == plain'
  {
    if Encrypt(a, nonce, plain) == Encrypt(a, nonce', plain') {
      var data, data' := nonce + a.seal(nonce, plain), nonce' + a.seal(nonce', plain');
      DecodeUndoesEncode(data);
      DecodeUndoesEncode(data');
      assert data == data';
      assert data[..a.nonceSize] == nonce && data'[..a.nonceSize] == nonce';
      assert data[a.nonceSize..] == a.seal(nonce, plain) && data'[a.nonceSize..] == a.seal(nonce', plain');
    }
  }

  // ----- The server line -----

  predicate OccursAt(t: ByteString, p: ByteString, i: int) {
    0 <= i && i + |p| <= |t| && t[i..i + |p|] == p
  }

  /** First index from i at which p occurs. */
  function First(t: ByteString, p: ByteString, i: nat): (r: Option<nat>)
    ensures r.Some? ==> r.value >= i && OccursAt(t, p, r.value)
    ensures r.Some? ==> forall k :: i <= k < r.value ==> !OccursAt(t, p, k)
    ensures r.None? ==> forall k :: i <= k ==> !OccursAt(t, p, k)
    decreases |t| - i
  {
    if OccursAt(t, p, i) then Some(i) else if i >= |t| then None else First(t, p, i + 1)
  }

  /** Last index below n at which p occurs. */
  function Last(t: ByteString, p: ByteString, n: nat): (r: Option<nat>)
    ensures r.Some? ==> r.value < n && OccursAt(t, p, r.value)
    ensures r.Some? ==> forall k :: r.value < k < n ==> !OccursAt(t, p, k)
    ensures r.None? ==> forall k :: k < n ==> !OccursAt(t, p, k)
  {
    if n == 0 then None else if OccursAt(t, p, n - 1) then Some(n - 1) else Last(t, p, n - 1)
  }

  /** t[i..j] is a match of `server: https://.*:16443`; the dot matches anything but a newline. */
  predicate Matches(t: ByteString, i: int, j: int) {
    && OccursAt(t, Server(), i) && j <= |t| && OccursAt(t, Port(), j - 6)
    && i + 16 <= j - 6
    && NEWLINE !in t[i + 16..j - 6]
  }

  lemma OccursAtIs(t: ByteString, p: ByteString, i: nat)
    ensures OccursAt(t, p, i) <==> exists x, y :: |x| == i && t == x + p + y
  {
    if OccursAt(t, p, i) {
      var x, y := t[..i], t[i + |p|..];
      assert t == x + p + y;
    }
  }

  lemma ServerAndPortAre()
    ensures Server() == AsciiBytes("server: https://") && Port() == AsciiBytes(":16443")
  {
  }

  lemma ServerLineIs(ip: ByteString)
    ensures ServerLine(ip) == AsciiBytes("server: https://") + ip + AsciiBytes(":16443")
  {
    ServerAndPortAre();
  }

  /** A match is what the regular expression says. */
  lemma MatchesAre(t: ByteString, i: nat, j: nat)
    requires i <= j <= |t|
    ensures Matches(t, i, j) <==>
              exists h :: 10 !in h && t[i..j] == AsciiBytes("server: https://") + h + AsciiBytes(":16443")
  {
    ServerAndPortAre();
    hide Server, Port, AsciiBytes;
    if Matches(t, i, j) {
      ThreeParts(t, i, i + 16, j - 6, j);
    }
    if h :| 10 !in h && t[i..j] == Server() + h + Port() {
      MatchFrom(t, i, j, h);
    }
  }

  lemma ThreeParts(t: ByteString, a: nat, b: nat, c: nat, d: nat)
    requires a <= b <= c <= d <= |t|
    ensures t[a..d] == t[a..b] + t[b..c] + t[c..d]
  {
  }

  lemma MatchFrom(t: ByteString, i: nat, j: nat, h: ByteString)
    requires i <= j <= |t| && NEWLINE !in h && t[i..j] == Server() + h + Port()
    ensures Matches(t, i, j)
  {
    hide Server, Port;
    var m := t[i..j];
    assert |m| == 22 + |h|;
    assert m[0..16] == Server() && m[16..16 + |h|] == h && m[16 + |h|..|m|] == Port();
    SliceOfSlice(t, i, j, 0, 16);
    SliceOfSlice(t, i, j, 16, 16 + |h|);
    SliceOfSlice(t, i, j, 16 + |h|, |m|);
  }

  /** An address that Go's replacement template and the regular expression take literally. */
  predicate IsAddress(ip: ByteString) {
    NEWLINE !in ip && '$' as int !in ip
  }

  function ServerLine(ip: ByteString): ByteString {
    Server() + ip + Port()
  }

  function RewriteLine(l: ByteString, ip: ByteString): ByteString {
    match First(l, Server(), 0)
    case None => l
    case Some(p) =>
      match Last(l, Port(), |l|)
      case None => l
      case Some(q) =>
        if p + 16 <= q then l[..p] + ServerLine(ip) + l[q + 6..] else l
  }

  function LineEnd(t: ByteString): (e: nat)
    ensures e <= |t| && NEWLINE !in t[..e]
    ensures e < |t| ==> t[e] == NEWLINE
  {
    if t == [] || t[0] == NEWLINE then 0
    else
      assert t[..LineEnd(t[1..]) + 1] == [t[0]] + t[1..][..LineEnd(t[1..])];
      LineEnd(t[1..]) + 1
  }

  /** The text with its server addresses replaced, line by line. */
  function Rewrite(t: ByteString, ip: ByteString): ByteString {
    var e := LineEnd(t);
    if e < |t| then RewriteLine(t[..e], ip) + [NEWLINE] + Rewrite(t[e + 1..], ip) else RewriteLine(t, ip)
  }

  lemma NewlineInPrefix(t: ByteString, n: nat, k: nat)
    requires k < n <= |t| && t[k] == NEWLINE
    ensures NEWLINE in t[..n]
  {
    assert t[..n][k] == NEWLINE;
  }

  lemma LineEndIs(t: ByteString, e: nat)
    requires e <= |t| && NEWLINE !in t[..e] && (e < |t| ==> t[e] == NEWLINE)
    ensures LineEnd(t) == e
  {
    hide *;
    if LineEnd(t) < e {
      NewlineInPrefix(t, e, LineEnd(t));
    }
    if e < LineEnd(t) {
      NewlineInPrefix(t, LineEnd(t), e);
    }
  }

  lemma SliceOfSlice(t: ByteString, a: nat, b: nat, i: nat, j: nat)
    requires a <= b <= |t| && i <= j <= b - a
    ensures t[a..b][i..j] == t[a + i..a + j]
  {
    assert forall k :: 0 <= k < j - i ==> t[a..b][i..j][k] == t[a + i..a + j][k];
  }

  /** p and q are the first server prefix and the last port suffix of the line, in this order. */
  ghost predicate Bounds(l: ByteString, p: int, q: int) {
    && Matches(l, p, q + 6)
    && (forall k :: 0 <= k < p ==> !OccursAt(l, Server(), k))
    && (forall k :: q < k ==> !OccursAt(l, Port(), k))
  }

  function Replaced(l: ByteString, p: nat, q: nat, ip: ByteString): ByteString
    requires p <= q && q + 6 <= |l|
  {
    l[..p] + ServerLine(ip) + l[q + 6..]
  }

  /** What RewriteLine does, declaratively: without a match nothing; otherwise it replaces the stretch from the first
      Server() to the end of the last port suffix. */
  lemma LineCases(l: ByteString, ip: ByteString) returns (found: bool, p: nat, q: nat)
    requires NEWLINE !in l
    ensures !found ==> RewriteLine(l, ip) == l && forall i, j :: !Matches(l, i, j)
    ensures found ==> Bounds(l, p, q) && RewriteLine(l, ip) == Replaced(l, p, q, ip)
  {
    found, p, q := false, 0, 0;
    if First(l, Server(), 0).Some? && Last(l, Port(), |l|).Some? {
      p, q := First(l, Server(), 0).value, Last(l, Port(), |l|).value;
      found := p + 16 <= q;
    }
  }

  lemma BoundsDecideTheLine(l: ByteString, p: nat, q: nat, ip: ByteString)
    requires NEWLINE !in l && Bounds(l, p, q)
    ensures RewriteLine(l, ip) == Replaced(l, p, q, ip)
  {
    var found, p', q' := LineCases(l, ip);
    hide RewriteLine, Replaced, Server, Port, OccursAt;
    assert Matches(l, p, q + 6);
    hide Matches;
    SameBounds(l, p, q, p', q');
  }

  lemma SameBounds(l: ByteString, p: nat, q: nat, p': nat, q': nat)
    requires Bounds(l, p, q)
    ensures Bounds(l, p', q') ==> p == p' && q == q'
  {
    hide Server, Port, OccursAt;
    if Bounds(l, p', q') {
      assert OccursAt(l, Server(), p) && OccursAt(l, Server(), p') && OccursAt(l, Port(), q) && OccursAt(l, Port(), q');
    }
  }

  lemma OccursInSlice(t: ByteString, a: nat, b: nat, p: ByteString, k: int)
    requires a <= b <= |t| && a <= k && k + |p| <= b
    ensures OccursAt(t[a..b], p, k - a) <==> OccursAt(t, p, k)
  {
    SliceOfSlice(t, a, b, k - a, k - a + |p|);
  }

  lemma OccursInCommonPrefix(t: ByteString, u: ByteString, n: nat, p: ByteString, k: int)
    requires n <= |t| && n <= |u| && t[0..n] == u[0..n]
    requires k + |p| <= n && OccursAt(t, p, k)
    ensures OccursAt(u, p, k)
  {
    OccursInSlice(t, 0, n, p, k);
    OccursInSlice(u, 0, n, p, k);
  }

  lemma OccursInCommonSuffix(t: ByteString, u: ByteString, d: nat, n: nat, p: ByteString, k: int)
    requires d <= |t| && n <= |u| && t[d..|t|] == u[n..|u|]
    requires d <= k && OccursAt(t, p, k)
    ensures OccursAt(u, p, k - d + n)
  {
    OccursInSlice(t, d, |t|, p, k);
    OccursInSlice(u, n, |u|, p, k - d + n);
  }

  lemma ReplacedParts(l: ByteString, p: nat, q: nat, ip: ByteString)
    requires Bounds(l, p, q)
    ensures p + 16 <= q && q + 6 <= |l|
    ensures var m, r := Replaced(l, p, q, ip), p + 16 + |ip|;
            && |m| == r + |l| - q
            && m[0..p + 16] == l[0..p + 16] && m[p + 16..r] == ip && m[r..|m|] == l[q..|l|]
            && OccursAt(m, Server(), p) && OccursAt(m, Port(), r)
            && m[p..r + 6] == ServerLine(ip)
  {
    hide Server, Port;
    var m, r := Replaced(l, p, q, ip), p + 16 + |ip|;
    assert l[q..|l|] == Port() + l[q + 6..];
    assert l[0..p + 16] == l[..p] + Server();
    assert m == l[..p] + Server() + ip + Port() + l[q + 6..];
    assert m[p..p + 16] == Server() && m[r..r + 6] == Port();
  }

  /** The rewritten line has its first server prefix and its last port suffix around the address. */
  lemma RewrittenLine(l: ByteString, p: nat, q: nat, ip: ByteString)
    requires NEWLINE !in l && Bounds(l, p, q) && IsAddress(ip)
    ensures Matches(l, p, q + 6)
    ensures NEWLINE !in Replaced(l, p, q, ip)
    ensures Bounds(Replaced(l, p, q, ip), p, p + 16 + |ip|)
    ensures Replaced(l, p, q, ip)[p..p + 16 + |ip| + 6] == ServerLine(ip)
  {
    ReplacedParts(l, p, q, ip);
    hide Server, Port, OccursAt;
    var m, r := Replaced(l, p, q, ip), p + 16 + |ip|;
    forall k | 0 <= k < p ensures !OccursAt(m, Server(), k) {
      if OccursAt(m, Server(), k) {
        OccursInCommonPrefix(m, l, p + 16, Server(), k);
      }
    }
    forall k | r < k ensures !OccursAt(m, Port(), k) {
      if OccursAt(m, Port(), k) {
        OccursInCommonSuffix(m, l, r, q, Port(), k);
      }
    }
  }

  // ----- Matches and lines -----

  lemma NoNewlineInside(t: ByteString, i: int, j: int, k: int)
    requires Matches(t, i, j) && i <= k < j
    ensures t[k] != NEWLINE
  {
    hide Server, Port;
    if k < i + 16 {
      assert t[i..i + 16][k - i] == t[k];
    } else if k < j - 6 {
      assert t[i + 16..j - 6][k - i - 16] == t[k];
    } else {
      assert t[j - 6..j][k - j + 6] == t[k];
    }
  }

  lemma MatchesInSlice(t: ByteString, a: nat, b: nat, i: int, j: int)
    requires a <= b <= |t| && a <= i && j <= b
    ensures Matches(t[a..b], i - a, j - a) <==> Matches(t, i, j)
  {
    hide Server, Port, OccursAt;
    if i + 16 <= j - 6 {
      OccursInSlice(t, a, b, Server(), i);
      OccursInSlice(t, a, b, Port(), j - 6);
      SliceOfSlice(t, a, b, i - a + 16, j - a - 6);
    }
  }

  lemma MatchOfLine(t: ByteString, i: int, j: int)
    requires i >= 0 && j <= LineEnd(t)
    ensures Matches(t[..LineEnd(t)], i, j) <==> Matches(t, i, j)
  {
    MatchesInSlice(t, 0, LineEnd(t), i, j);
    assert t[0..LineEnd(t)] == t[..LineEnd(t)];
  }

  lemma MatchOfRest(t: ByteString, d: nat, i: int, j: int)
    requires d <= |t| && i >= 0 && j <= |t| - d
    ensures Matches(t[d..], i, j) <==> Matches(t, i + d, j + d)
  {
    MatchesInSlice(t, d, |t|, i + d, j + d);
    assert t[d..|t|] == t[d..];
  }

  lemma MatchIsInside(t: ByteString, i: int, j: int)
    requires Matches(t, i, j)
    ensures 0 <= i && i + 22 <= j <= |t|
  {
  }

  lemma MatchAvoidsNewline(t: ByteString, i: int, j: int, e: nat)
    requires Matches(t, i, j) && e <= |t| && (e < |t| ==> t[e] == NEWLINE)
    ensures j <= e || e < i
  {
    MatchIsInside(t, i, j);
    hide Matches;
    if i <= e < j {
      NoNewlineInside(t, i, j, e);
    }
  }

  /** A match lies within one line. */
  lemma MatchStaysInLine(t: ByteString, i: int, j: int)
    requires Matches(t, i, j)
    ensures var e := LineEnd(t);
            && 0 <= i && i + 22 <= j <= |t|
            && ((j <= e && Matches(t[..e], i, j)) ||
                (e < i && Matches(t[e + 1..], i - e - 1, j - e - 1)))
  {
    hide *;
    var e := LineEnd(t);
    MatchIsInside(t, i, j);
    MatchAvoidsNewline(t, i, j, e);
    if j <= e {
      MatchOfLine(t, i, j);
    } else {
      MatchOfRest(t, e + 1, i - e - 1, j - e - 1);
    }
  }

  // ----- Rewrite is ReplaceAll -----

  lemma SplitAtNewline(t: ByteString, e: nat)
    requires e < |t| && t[e] == NEWLINE
    ensures t == t[..e] + [NEWLINE] + t[e + 1..]
  {
  }

  lemma RewriteByLines(t: ByteString, ip: ByteString)
    ensures var e := LineEnd(t);
            && (e < |t| ==> Rewrite(t, ip) == RewriteLine(t[..e], ip) + [NEWLINE] + Rewrite(t[e + 1..], ip))
            && (e < |t| ==> t == t[..e] + [NEWLINE] + t[e + 1..])
            && (e == |t| ==> Rewrite(t, ip) == RewriteLine(t[..e], ip) && t[..e] == t)
  {
    var e := LineEnd(t);
    hide RewriteLine, LineEnd;
    if e < |t| {
      SplitAtNewline(t, e);
    } else {
      assert t[..e] == t;
    }
  }

  /** Without a match the text is unchanged. */
  lemma {:induction false} NoMatchNoChange(t: ByteString, ip: ByteString)
    requires forall i, j :: !Matches(t, i, j)
    ensures Rewrite(t, ip) == t
    decreases |t|
  {
    hide Matches, Rewrite, RewriteLine, Replaced;
    var e := LineEnd(t);
    var found, p, q := LineCases(t[..e], ip);
    if found {
      MatchIsInside(t[..e], p, q + 6);
      MatchOfLine(t, p, q + 6);
    }
    RewriteByLines(t, ip);
    if e < |t| {
      var u := t[e + 1..];
      forall i, j ensures !Matches(u, i, j) {
        if Matches(u, i, j) {
          MatchIsInside(u, i, j);
          MatchOfRest(t, e + 1, i, j);
        }
      }
      NoMatchNoChange(t[e + 1..], ip);
    }
  }

  /** The leftmost match, at its longest. */
  ghost predicate IsFirstMatch(t: ByteString, i: int, j: int) {
    && Matches(t, i, j)
    && (forall i', j' :: Matches(t, i', j') ==> i <= i')
    && (forall j' :: Matches(t, i, j') ==> j' <= j)
  }

  /** The leftmost-longest match is replaced by the server line, and rewriting goes on after it. */
  lemma {:induction false} FirstMatchIsReplaced(t: ByteString, ip: ByteString, i: nat, j: nat)
    requires IsFirstMatch(t, i, j)
    ensures j <= |t|
    ensures Rewrite(t, ip) ==
            t[..i] + (AsciiBytes("server: https://") + ip + AsciiBytes(":16443")) + Rewrite(t[j..], ip)
    decreases |t|
  {
    ServerLineIs(ip);
    hide Matches, Rewrite, RewriteLine, Replaced, ServerLine, AsciiBytes;
    var e := LineEnd(t);
    MatchStaysInLine(t, i, j);
    if j <= e {
      FirstMatchInLine(t, ip, i, j);
    } else {
      var found, p, q := LineCases(t[..e], ip);
      if found {
        MatchIsInside(t[..e], p, q + 6);
        MatchOfLine(t, p, q + 6);
      }
      FirstMatchOfRest(t, e + 1, i, j);
      FirstMatchIsReplaced(t[e + 1..], ip, i - e - 1, j - e - 1);
      RewriteByLines(t, ip);
      SkipLine(t, e, i, j);
    }
  }

  lemma SkipLine(t: ByteString, e: nat, i: nat, j: nat)
    requires e < i <= j <= |t| && t[e] == NEWLINE
    ensures t[..e] + [NEWLINE] + t[e + 1..][..i - e - 1] == t[..i]
    ensures t[e + 1..][j - e - 1..] == t[j..]
  {
  }

  lemma FirstMatchOfRest(t: ByteString, d: nat, i: nat, j: nat)
    requires IsFirstMatch(t, i, j) && d <= i && d <= |t| && Matches(t[d..], i - d, j - d)
    ensures IsFirstMatch(t[d..], i - d, j - d)
  {
    hide Matches;
    forall i', j' | Matches(t[d..], i', j') ensures i - d <= i' && (i' == i - d ==> j' <= j - d) {
      MatchIsInside(t[d..], i', j');
      MatchOfRest(t, d, i', j');
    }
  }

  lemma Regroup(a: ByteString, b: ByteString, c: ByteString, d: ByteString)
    ensures a + b + c + d == a + b + (c + d)
  {
  }

  lemma SlicesOfLine(t: ByteString, e: nat, i: nat, j: nat)
    requires i <= j <= e <= |t|
    ensures t[..e][..i] == t[..i] && t[..e][j..] == t[j..e]
  {
  }

  lemma FirstMatchInLine(t: ByteString, ip: ByteString, i: nat, j: nat)
    requires IsFirstMatch(t, i, j) && j <= LineEnd(t) && Matches(t[..LineEnd(t)], i, j)
    ensures j <= |t| && Rewrite(t, ip) == t[..i] + ServerLine(ip) + Rewrite(t[j..], ip)
  {
    hide *;
    var e := LineEnd(t);
    var q := FirstMatchBounds(t, ip, i, j);
    AfterTheMatch(t, ip, i, j);
    RewriteByLines(t, ip);
    BoundsDecideTheLine(t[..e], i, q, ip);
    SlicesOfLine(t, e, i, j);
    Regroup(t[..i], ServerLine(ip), t[j..e], if e < |t| then [NEWLINE] + Rewrite(t[e + 1..], ip) else []);
  }

  lemma FirstMatchBounds(t: ByteString, ip: ByteString, i: nat, j: nat) returns (q: nat)
    requires IsFirstMatch(t, i, j) && j <= LineEnd(t) && Matches(t[..LineEnd(t)], i, j)
    ensures j == q + 6 && i + 16 <= q && Bounds(t[..LineEnd(t)], i, q)
    ensures Replaced(t[..LineEnd(t)], i, q, ip) == t[..LineEnd(t)][..i] + ServerLine(ip) + t[..LineEnd(t)][q + 6..]
  {
    hide RewriteLine, ServerLine, Server, Port, OccursAt, First, Last;
    var l := t[..LineEnd(t)];
    var found, p, q' := LineCases(l, ip);
    MatchOfLine(t, p, q' + 6);
    q := q';
  }

  /** The rest of a line after its match is copied. */
  lemma AfterTheMatch(t: ByteString, ip: ByteString, i: nat, j: nat)
    requires 6 <= j <= LineEnd(t) && Bounds(t[..LineEnd(t)], i, j - 6)
    ensures var e := LineEnd(t);
            Rewrite(t[j..], ip) == t[j..e] + if e < |t| then [NEWLINE] + Rewrite(t[e + 1..], ip) else []
  {
    hide Rewrite, RewriteLine, Server, Port, OccursAt, First, Last;
    var e := LineEnd(t);
    var u, l := t[j..], t[..e];
    assert u[..e - j] == t[j..e] == l[j..|l|];
    LineEndIs(u, e - j);
    var found, p, q := LineCases(u[..e - j], ip);
    if found {
      OccursInSlice(l, j, |l|, Port(), q + j);
    }
    RewriteByLines(u, ip);
    assert e < |t| ==> u[e - j + 1..] == t[e + 1..];
  }

  // ----- Every remaining match names the address -----

  /** What a leftmost-longest scan can report: no match that starts earlier reaches into it, none from its start is
      longer. */
  ghost predicate Reported(t: ByteString, i: int, j: int) {
    && Matches(t, i, j)
    && (forall i', j' :: Matches(t, i', j') && i' < i ==> j' <= i)
    && (forall j' :: Matches(t, i, j') ==> j' <= j)
  }

  lemma RewrittenLineEnd(t: ByteString, ip: ByteString)
    requires IsAddress(ip)
    ensures var e, m, w := LineEnd(t), RewriteLine(t[..LineEnd(t)], ip), Rewrite(t, ip);
            && NEWLINE !in m && LineEnd(w) == |m| && w[..|m|] == m
            && (e < |t| ==> |m| < |w| && w[|m| + 1..] == Rewrite(t[e + 1..], ip))
            && (e == |t| ==> w == m)
  {
    hide Rewrite, RewriteLine, Replaced, Bounds, IsAddress;
    var l := t[..LineEnd(t)];
    var found, p, q := LineCases(l, ip);
    if found {
      RewrittenLine(l, p, q, ip);
    }
    RewriteByLines(t, ip);
    assert Rewrite(t, ip)[..|RewriteLine(l, ip)|] == RewriteLine(l, ip);
    LineEndIs(Rewrite(t, ip), |RewriteLine(l, ip)|);
  }

  lemma ReportedInLine(m: ByteString, ip: ByteString, l: ByteString, i: nat, j: nat)
    requires NEWLINE !in l && IsAddress(ip) && m == RewriteLine(l, ip) && Reported(m, i, j)
    ensures m[i..j] == ServerLine(ip)
  {
    hide RewriteLine, Replaced, IsAddress, Server, Port, ServerLine, First, Last;
    var found, p, q := LineCases(l, ip);
    if found {
      RewrittenLine(l, p, q, ip);
      var r := p + 16 + |ip|;
      assert Matches(m, p, r + 6);
      assert p <= i && j - 6 <= r;
    }
  }

  lemma ReportedInRest(w: ByteString, d: nat, i: int, j: int)
    requires Reported(w, i, j) && d <= i && d <= |w| && Matches(w[d..], i - d, j - d)
    ensures Reported(w[d..], i - d, j - d)
  {
    hide Matches;
    forall i', j' | Matches(w[d..], i', j') ensures Matches(w, i' + d, j' + d) {
      MatchIsInside(w[d..], i', j');
      MatchOfRest(w, d, i', j');
    }
  }

  lemma ReportedInFirst(w: ByteString, i: int, j: int)
    requires Reported(w, i, j) && Matches(w[..LineEnd(w)], i, j)
    ensures Reported(w[..LineEnd(w)], i, j)
  {
    hide Matches;
    forall i', j' | Matches(w[..LineEnd(w)], i', j') ensures Matches(w, i', j') {
      MatchIsInside(w[..LineEnd(w)], i', j');
      MatchOfLine(w, i', j');
    }
  }

  /** After the rewrite, every match the regular expression can report names the address. */
  lemma {:induction false} EveryMatchNamesTheAddress(t: ByteString, ip: ByteString, i: nat, j: nat)
    requires IsAddress(ip) && Reported(Rewrite(t, ip), i, j)
    ensures i <= j <= |Rewrite(t, ip)|
    ensures Rewrite(t, ip)[i..j] == AsciiBytes("server: https://") + ip + AsciiBytes(":16443")
    decreases |t|
  {
    ServerLineIs(ip);
    hide Matches, Rewrite, RewriteLine, ServerLine, IsAddress, LineEnd, AsciiBytes;
    var e, w := LineEnd(t), Rewrite(t, ip);
    RewrittenLineEnd(t, ip);
    MatchStaysInLine(w, i, j);
    if j <= LineEnd(w) {
      ReportedInFirst(w, i, j);
      ReportedInLine(w[..LineEnd(w)], ip, t[..e], i, j);
      SliceOfSlice(w, 0, LineEnd(w), i, j);
    } else {
      var d := LineEnd(w) + 1;
      ReportedInRest(w, d, i, j);
      EveryMatchNamesTheAddress(t[e + 1..], ip, i - d, j - d);
      SliceOfSlice(w, d, |w|, i - d, j - d);
    }
  }

  /** Rewriting again to the same address changes nothing. */
  lemma {:induction false} RewriteIsIdempotent(t: ByteString, ip: ByteString)
    requires IsAddress(ip)
    ensures Rewrite(Rewrite(t, ip), ip) == Rewrite(t, ip)
    decreases |t|
  {
    hide Rewrite, RewriteLine, IsAddress;
    var e, w := LineEnd(t), Rewrite(t, ip);
    RewrittenLineEnd(t, ip);
    LineIsFixed(t[..e], ip);
    RewriteByLines(w, ip);
    RewriteByLines(t, ip);
    if e < |t| {
      RewriteIsIdempotent(t[e + 1..], ip);
    }
  }

  lemma LineIsFixed(l: ByteString, ip: ByteString)
    requires NEWLINE !in l && IsAddress(ip)
    ensures RewriteLine(RewriteLine(l, ip), ip) == RewriteLine(l, ip)
  {
    hide RewriteLine, IsAddress, ServerLine, Server, Port;
    var found, p, q := LineCases(l, ip);
    if found {
      RewrittenLine(l, p, q, ip);
      var m, r := RewriteLine(l, ip), p + 16 + |ip|;
      BoundsDecideTheLine(m, p, r, ip);
      assert m == m[..p] + m[p..r + 6] + m[r + 6..];
    }
  }

  // ----- From the fetched file to the deploy task -----

  /** An address as the text it is put into; addresses are ASCII. */
  type Address = s: string | forall i :: 0 <= i < |s| ==> s[i] < 128 as char witness ""

  function AsciiBytes(ip: Address): (t: ByteString)
    ensures |t| == |ip|
  {
    seq(|ip|, i requires 0 <= i < |ip| => ip[i] as int)
  }

  /** What the provision task stores; without a cipher (development) the text itself. */
  function Stored(cipher: Option<Aead>, nonce: ByteString, fetched: ByteString, ip: ByteString): StoredText {
    match cipher
    case None => Plain(Rewrite(fetched, ip))
    case Some(a) => Sealed(Encrypt(a, nonce, Rewrite(fetched, ip)))
  }

  /** A Go string holds bytes; the two ways of filling it are kept apart here. */
  datatype StoredText = Plain(text: ByteString) | Sealed(encoded: string)

  /** decryptKubeconfig. */
  function Load(cipher: Option<Aead>, stored: StoredText): Option<ByteString> {
    match (cipher, stored)
    case (None, Plain(t)) => Some(t)
    case (Some(a), Sealed(s)) => var o := Decrypt(a, s); if o.Opened? then Some(o.plain) else None
    case _ => None
  }

  /** What a later task reads with the same cipher setting is the fetched file with its server address replaced. */
  lemma {:induction false} LoadUndoesStored(cipher: Option<Aead>, nonce: ByteString, fetched: ByteString, ip: ByteString)
    requires cipher.Some? ==> OpensWhatItSeals(cipher.value) && |nonce| == cipher.value.nonceSize
    ensures Load(cipher, Stored(cipher, nonce, fetched, ip)) == Some(Rewrite(fetched, ip))
  {
    if cipher.Some? {
      var s := Encrypt(cipher.value, nonce, Rewrite(fetched, ip));
      EncodingHasNoNewline(nonce + cipher.value.seal(nonce, Rewrite(fetched, ip)));
      NothingToSkip(s);
      DecryptUndoesEncrypt(cipher.value, nonce, Rewrite(fetched, ip), s);
    }
  }

  /** The text has the line a + "server: https://" + h + ":16443" + b, in which no such prefix comes earlier and no such
      suffix later, and no such prefix in any other line. */
  ghost predicate HasServerLine(t: ByteString, u: ByteString, a: ByteString, h: ByteString, b: ByteString, v: ByteString) {
    var l := a + AsciiBytes("server: https://") + h + AsciiBytes(":16443") + b;
    && t == u + l + v && 10 !in a && 10 !in h && 10 !in b
    && (u == [] || u[|u| - 1] == 10) && (v == [] || v[0] == 10)
    && (forall k :: k < |a| ==> !OccursAt(l, AsciiBytes("server: https://"), k))
    && (forall k :: k > |a| + 16 + |h| ==> !OccursAt(l, AsciiBytes(":16443"), k))
    && (forall k :: !OccursAt(u, AsciiBytes("server: https://"), k) && !OccursAt(v, AsciiBytes("server: https://"), k))
  }

  /** What a task reads later names the address in that line, and is otherwise what was fetched. */
  ghost predicate NamesAddress(cipher: Option<Aead>, stored: StoredText, fetched: ByteString, ip: Address) {
    forall u, a, h, b, v :: HasServerLine(fetched, u, a, h, b, v) ==>
      Load(cipher, stored) ==
      Some(u + (a + AsciiBytes("server: https://") + AsciiBytes(ip) + AsciiBytes(":16443") + b) + v)
  }

  lemma LineIsRewritten(a: ByteString, h: ByteString, b: ByteString, ip: ByteString)
    requires NEWLINE !in a && NEWLINE !in h && NEWLINE !in b
    requires var l := a + Server() + h + Port() + b;
             && (forall k :: k < |a| ==> !OccursAt(l, Server(), k))
             && (forall k :: k > |a| + 16 + |h| ==> !OccursAt(l, Port(), k))
    ensures RewriteLine(a + Server() + h + Port() + b, ip) == a + Server() + ip + Port() + b
  {
    var l, p, q := a + Server() + h + Port() + b, |a|, |a| + 16 + |h|;
    PartsOfLine(a, Server(), h, Port(), b);
    hide Server, Port, OccursAt, First, Last, RewriteLine;
    assert NEWLINE !in l;
    BoundsDecideTheLine(l, p, q, ip);
    assert a + (Server() + ip + Port()) + b == a + Server() + ip + Port() + b;
  }

  lemma PartsOfLine(a: ByteString, s: ByteString, h: ByteString, p: ByteString, b: ByteString)
    ensures var l, i, j := a + s + h + p + b, |a| + |s|, |a| + |s| + |h|;
            && |l| == j + |p| + |b| && l[..|a|] == a && l[i..j] == h && l[j + |p|..] == b
            && OccursAt(l, s, |a|) && OccursAt(l, p, j)
  {
    var l, i, j := a + s + h + p + b, |a| + |s|, |a| + |s| + |h|;
    assert l[|a|..i] == s && l[j..j + |p|] == p;
  }

  lemma {:induction false} NoPrefixNoChange(t: ByteString, ip: ByteString)
    requires forall k :: !OccursAt(t, Server(), k)
    ensures Rewrite(t, ip) == t
  {
    hide Server, Port, Rewrite, OccursAt;
    NoMatchNoChange(t, ip);
  }

  /** Rewriting goes line by line. */
  lemma {:induction false} RewriteAfterNewline(u: ByteString, t: ByteString, ip: ByteString)
    requires u == [] || u[|u| - 1] == NEWLINE
    ensures Rewrite(u + t, ip) == Rewrite(u, ip) + Rewrite(t, ip)
    decreases |u|
  {
    hide *;
    if u == [] {
      EmptyIsFixed(ip);
      assert u + t == t && Rewrite(u, ip) + Rewrite(t, ip) == Rewrite(t, ip);
    } else {
      var e := LineEnd(u);
      LastIsNewline(u);
      FirstLineOfAppend(u, t);
      RewriteByLines(u + t, ip);
      RewriteByLines(u, ip);
      RewriteAfterNewline(u[e + 1..], t, ip);
      Regroup(RewriteLine(u[..e], ip), [NEWLINE], Rewrite(u[e + 1..], ip), Rewrite(t, ip));
    }
  }

  lemma FirstLineOfAppend(u: ByteString, t: ByteString)
    requires u != [] && u[|u| - 1] == NEWLINE && LineEnd(u) < |u|
    ensures var e, rest := LineEnd(u), u[LineEnd(u) + 1..];
            && LineEnd(u + t) == e < |u + t| && (u + t)[..e] == u[..e] && (u + t)[e + 1..] == rest + t
            && (rest == [] || rest[|rest| - 1] == NEWLINE)
  {
    hide LineEnd;
    var e := LineEnd(u);
    assert (u + t)[..e] == u[..e];
    LineEndIs(u + t, e);
  }

  lemma EmptyIsFixed(ip: ByteString)
    ensures Rewrite([], ip) == [] && RewriteLine([], ip) == []
  {
  }

  lemma LastIsNewline(u: ByteString)
    requires u != [] && u[|u| - 1] == NEWLINE
    ensures LineEnd(u) < |u|
  {
    NewlineInPrefix(u, |u|, |u| - 1);
  }

  lemma RewriteBeforeNewline(l: ByteString, v: ByteString, ip: ByteString)
    requires NEWLINE !in l && (v == [] || v[0] == NEWLINE)
    ensures Rewrite(l + v, ip) == RewriteLine(l, ip) + Rewrite(v, ip)
  {
    EmptyIsFixed(ip);
    if v == [] {
      assert l + v == l && l[..|l|] == l;
      LineEndIs(l, |l|);
      RewriteByLines(l, ip);
    } else {
      LineThenNewline(l, v);
      LineThenNewline([], v);
      assert [] + v == v;
      RewriteByLines(l + v, ip);
      RewriteByLines(v, ip);
      hide *;
      Regroup(RewriteLine(l, ip), [], [NEWLINE], Rewrite(v[1..], ip));
      assert RewriteLine(l, ip) + [] == RewriteLine(l, ip) && [] + [NEWLINE] == [NEWLINE];
      assert RewriteLine(l, ip) + [NEWLINE] + Rewrite(v[1..], ip) == RewriteLine(l, ip) + ([NEWLINE] + Rewrite(v[1..], ip));
    }
  }

  lemma LineThenNewline(l: ByteString, v: ByteString)
    requires NEWLINE !in l && v != [] && v[0] == NEWLINE
    ensures LineEnd(l + v) == |l| < |l + v| && (l + v)[..|l|] == l && (l + v)[|l| + 1..] == v[1..]
  {
    hide LineEnd;
    assert (l + v)[..|l|] == l;
    LineEndIs(l + v, |l|);
  }

  lemma TextIsRewritten(t: ByteString, u: ByteString, a: ByteString, h: ByteString, b: ByteString, v: ByteString,
                        ip: ByteString)
    requires HasServerLine(t, u, a, h, b, v)
    ensures Rewrite(t, ip) == u + (a + AsciiBytes("server: https://") + ip + AsciiBytes(":16443") + b) + v
  {
    ServerAndPortAre();
    hide Server, Port, AsciiBytes, Rewrite, RewriteLine, OccursAt;
    var l := a + Server() + h + Port() + b;
    LineIsRewritten(a, h, b, ip);
    NoPrefixNoChange(u, ip);
    NoPrefixNoChange(v, ip);
    RewriteBeforeNewline(l, v, ip);
    RewriteAfterNewline(u, l + v, ip);
    assert u + (l + v) == u + l + v;
    var l' := RewriteLine(l, ip);
    assert u + (l' + v) == u + l' + v;
  }

  /** What the provision task stores names the public address in the file's server line. */
  lemma StoredNamesAddress(cipher: Option<Aead>, nonce: ByteString, fetched: ByteString, ip: Address)
    requires cipher.Some? ==> OpensWhatItSeals(cipher.value) && |nonce| == cipher.value.nonceSize
    ensures NamesAddress(cipher, Stored(cipher, nonce, fetched, AsciiBytes(ip)), fetched, ip)
  {
    hide *;
    LoadUndoesStored(cipher, nonce, fetched, AsciiBytes(ip));
    LoadedNamesAddress(cipher, Stored(cipher, nonce, fetched, AsciiBytes(ip)), fetched, ip);
  }

  lemma LoadedNamesAddress(cipher: Option<Aead>, stored: StoredText, fetched: ByteString, ip: Address)
    requires Load(cipher, stored) == Some(Rewrite(fetched, AsciiBytes(ip)))
    ensures NamesAddress(cipher, stored, fetched, ip)
  {
    hide Load, HasServerLine, AsciiBytes, Rewrite;
    forall u, a, h, b, v | HasServerLine(fetched, u, a, h, b, v)
      ensures Rewrite(fetched, AsciiBytes(ip)) ==
              u + (a + AsciiBytes("server: https://") + AsciiBytes(ip) + AsciiBytes(":16443") + b) + v
    {
      TextIsRewritten(fetched, u, a, h, b, v, AsciiBytes(ip));
    }
  }
}
