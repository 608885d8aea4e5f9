/** Masking of the token that follows a credential prefix (crates/gateway/src/redact.rs:10-32). */
module Redact {
  const MASK := "[redacted]"

  /** Unicode white space, as `char::is_whitespace` has it. */
  predicate IsWhitespace(c: char) {
    || '\t' <= c <= '\r' || c in {' ', '\U{85}', '\U{A0}', '\U{1680}'}
    || '\U{2000}' <= c <= '\U{200A}' || c in {'\U{2028}', '\U{2029}', '\U{202F}', '\U{205F}', '\U{3000}'}
  }

  predicate EndsToken(c: char) { IsWhitespace(c) || c == '"' || c == '\'' || c == ',' || c == '}' }

  function TokenLength(t: string): (n: nat)
    ensures n <= |t| && (n < |t| ==> EndsToken(t[n]))
    ensures forall i | 0 <= i < n :: !EndsToken(t[i])
  {
    if t == "" || EndsToken(t[0]) then 0 else
      var n := TokenLength(t[1..]);
      assert forall i | 0 < i < n + 1 :: t[i] == t[1..][i - 1];
      n + 1
  }

  /** Index of the first prefix in the list that starts `t`, or |prefixes|. */
  function FirstPrefix(prefixes: seq<string>, t: string): (k: nat)
    ensures k <= |prefixes| && (k < |prefixes| ==> prefixes[k] <= t)
    ensures forall j | 0 <= j < k :: !(prefixes[j] <= t)
  {
    if prefixes == [] || prefixes[0] <= t then 0 else
      var k := FirstPrefix(prefixes[1..], t);
      assert forall j | 0 < j < |prefixes| :: prefixes[j] == prefixes[1..][j - 1];
      k + 1
  }

  predicate NoneEmpty(prefixes: seq<string>) { forall k | 0 <= k < |prefixes| :: prefixes[k] != "" }

  function Redacted(prefixes: seq<string>, t: string): string
    requires NoneEmpty(prefixes)
    decreases |t|
  {
    if t == "" then "" else
      var k := FirstPrefix(prefixes, t);
      if k < |prefixes| then
        var rest := t[|prefixes[k]|..];
        prefixes[k] + MASK + Redacted(prefixes, rest[TokenLength(rest)..])
      else [t[0]] + Redacted(prefixes, t[1..])
  }

  /** The loop ends because a prefix is never empty. */
  method RedactTokenAfterPrefixes(value: string, prefixes: seq<string>) returns (output: string)
    requires NoneEmpty(prefixes)
    ensures output == Redacted(prefixes, value)
  {
    output := "";
    var rest := value;
    while rest != ""
      invariant output + Redacted(prefixes, rest) == Redacted(prefixes, value)
      decreases |rest|
    {
      var k := FirstPrefix(prefixes, rest);
      if k < |prefixes| {
        var prefix := prefixes[k];
        var tail := rest[|prefix|..];
        JoinPiece(output, prefix + MASK, Redacted(prefixes, tail[TokenLength(tail)..]));
        output := output + (prefix + MASK);
        rest := tail[TokenLength(tail)..];
      } else {
        JoinPiece(output, [rest[0]], Redacted(prefixes, rest[1..]));
        output := output + [rest[0]];
        rest := rest[1..];
      }
    }
  }

  lemma JoinPiece(output: string, piece: string, rest: string)
    ensures output + (piece + rest) == (output + piece) + rest
  {
  }

  // ----- a text is left alone exactly when every prefix in it is already masked -----

  /** What must follow a prefix. */
  predicate Masked(t: string) { MASK <= t && (|t| == |MASK| || EndsToken(t[|MASK|])) }

  predicate MaskedAt(prefixes: seq<string>, t: string) {
    forall k | 0 <= k < |prefixes| :: prefixes[k] <= t ==> Masked(t[|prefixes[k]|..])
  }

  predicate AllMasked(prefixes: seq<string>, t: string) {
    forall i | 0 <= i <= |t| :: MaskedAt(prefixes, t[i..])
  }

  lemma MaskIsOneToken(t: string)
    requires Masked(t)
    ensures TokenLength(t) == |MASK|
  {
    assert forall i | 0 <= i < |MASK| :: t[i] == MASK[i] && !EndsToken(MASK[i]);
  }

  lemma SuffixMasked(prefixes: seq<string>, t: string, n: nat)
    requires AllMasked(prefixes, t) && n <= |t|
    ensures AllMasked(prefixes, t[n..])
  {
    forall i | 0 <= i <= |t[n..]| ensures MaskedAt(prefixes, t[n..][i..]) {
      assert t[n..][i..] == t[n + i..];
    }
  }

  lemma {:induction false} MaskedTextIsKept(prefixes: seq<string>, t: string)
    requires NoneEmpty(prefixes) && AllMasked(prefixes, t)
    ensures Redacted(prefixes, t) == t
    decreases |t|
  {
    if t != "" {
      assert t[0..] == t && MaskedAt(prefixes, t[0..]);
      var k := FirstPrefix(prefixes, t);
      if k < |prefixes| {
        var n := |prefixes[k]|;
        MaskIsOneToken(t[n..]);
        SecretIsMasked(prefixes, t, k);
        var rest := t[n..][|MASK|..];
        assert rest == t[n + |MASK|..] && t[n..][..|MASK|] == MASK;
        SuffixMasked(prefixes, t, n + |MASK|);
        MaskedTextIsKept(prefixes, rest);
      } else {
        SuffixMasked(prefixes, t, 1);
        MaskedTextIsKept(prefixes, t[1..]);
      }
    }
  }

  /** No prefix lies inside another, and none can be hidden in a mask. */
  predicate Distinctive(prefixes: seq<string>) {
    && NoneEmpty(prefixes)
    && (forall j, k, i | 0 <= j < |prefixes| && 0 <= k < |prefixes| && 0 <= i < |prefixes[j]| ::
          prefixes[k] <= prefixes[j][i..] ==> i == 0 && prefixes[k] == prefixes[j])
    && (forall k | 0 <= k < |prefixes| :: '[' !in prefixes[k] && ']' !in prefixes[k])
    && (forall k | 0 <= k < |prefixes| :: exists c :: c in prefixes[k] && EndsToken(c))
  }

  lemma OneStartsTheOther(a: string, b: string, t: string)
    ensures a <= t && b <= t ==> a <= b || b <= a
  {
    assert a <= t && b <= t && |a| <= |b| ==> a == b[..|a|];
    assert a <= t && b <= t && |b| <= |a| ==> b == a[..|b|];
  }

  lemma CharactersAgree(p: string, t: string)
    ensures p <= t ==> |p| <= |t| && forall x | 0 <= x < |p| :: p[x] == t[x] && p[x] in p
  {
  }

  lemma StartsThrough(a: string, b: string, t: string)
    requires a <= b <= t
    ensures a <= t
  {
    assert b == t[..|b|] && a == b[..|a|];
  }

  /** What ends a prefix and starts a masked secret starts that secret's own prefix. */
  lemma CompletedInSecret(prefixes: seq<string>, j: nat, i: nat, t: string, k: nat)
    requires Distinctive(prefixes) && j < |prefixes| && 1 <= i < |prefixes[j]|
    requires k < |prefixes| && FirstPrefix(prefixes, t) == k
    requires prefixes[j][i..] <= Redacted(prefixes, t)
    ensures prefixes[j][i..] <= t
  {
    var p := prefixes[j][i..];
    SecretIsMasked(prefixes, t, k);
    assert prefixes[k] <= Redacted(prefixes, t);
    OneStartsTheOther(p, prefixes[k], Redacted(prefixes, t));
    assert !(prefixes[k] <= p);
    StartsThrough(p, prefixes[k], t);
  }

  /** Redacting never completes a prefix that has begun before. */
  lemma {:induction false} NoPrefixCompleted(prefixes: seq<string>, j: nat, i: nat, t: string)
    requires Distinctive(prefixes) && j < |prefixes| && 1 <= i <= |prefixes[j]|
    requires prefixes[j][i..] <= Redacted(prefixes, t)
    ensures prefixes[j][i..] <= t
    decreases |t|
  {
    var p := prefixes[j][i..];
    if p != "" {
      var k := FirstPrefix(prefixes, t);
      if k == |prefixes| {
        assert prefixes[j][i + 1..] == p[1..];
        assert Redacted(prefixes, t)[1..] == Redacted(prefixes, t[1..]);
        NoPrefixCompleted(prefixes, j, i + 1, t[1..]);
      } else {
        CompletedInSecret(prefixes, j, i, t, k);
      }
    }
  }

  lemma FirstKept(prefixes: seq<string>, t: string)
    requires NoneEmpty(prefixes) && t != ""
    ensures Redacted(prefixes, t) != "" && Redacted(prefixes, t)[0] == t[0]
  {
  }

  /** No prefix starts inside a masked one: neither within its prefix nor within its mask. */
  lemma NoPrefixInside(prefixes: seq<string>, k: nat, rest: string, i: nat, j: nat)
    requires Distinctive(prefixes) && k < |prefixes| && j < |prefixes|
    requires 1 <= i < |prefixes[k] + MASK|
    ensures !(prefixes[j] <= (prefixes[k] + MASK + rest)[i..])
  {
    if i < |prefixes[k]| {
      PrefixInPrefix(prefixes, k, rest, i, j);
    } else {
      PrefixInMask(prefixes, k, rest, i, j);
    }
  }

  lemma PrefixInPrefix(prefixes: seq<string>, k: nat, rest: string, i: nat, j: nat)
    requires Distinctive(prefixes) && k < |prefixes| && j < |prefixes| && 1 <= i < |prefixes[k]|
    ensures !(prefixes[j] <= (prefixes[k] + MASK + rest)[i..])
  {
    var p, out, n := prefixes[j], prefixes[k] + MASK + rest, |prefixes[k]|;
    OneStartsTheOther(p, prefixes[k][i..], out[i..]);
    assert prefixes[k][i..] <= out[i..] && out[i..][n - i] == '[';
    CharactersAgree(p, out[i..]);
  }

  lemma PrefixInMask(prefixes: seq<string>, k: nat, rest: string, i: nat, j: nat)
    requires Distinctive(prefixes) && k < |prefixes| && j < |prefixes|
    requires |prefixes[k]| <= i < |prefixes[k] + MASK|
    ensures !(prefixes[j] <= (prefixes[k] + MASK + rest)[i..])
  {
    var p, out, n := prefixes[j], prefixes[k] + MASK + rest, |prefixes[k]|;
    var m :| 0 <= m < |p| && EndsToken(p[m]);
    assert forall x | n <= x < n + |MASK| :: out[x] == MASK[x - n] && !EndsToken(MASK[x - n]);
    assert forall x | 0 <= x < |out| - i :: out[i..][x] == out[i + x];
    assert out[i..][n + 9 - i] == ']';
    CharactersAgree(p, out[i..]);
  }

  lemma {:induction false} RedactedIsMasked(prefixes: seq<string>, t: string)
    requires Distinctive(prefixes)
    ensures AllMasked(prefixes, Redacted(prefixes, t))
    decreases |t|
  {
    if t != "" {
      var k := FirstPrefix(prefixes, t);
      if k < |prefixes| {
        var rest := t[|prefixes[k]|..];
        var tail := rest[TokenLength(rest)..];
        RedactedIsMasked(prefixes, tail);
        if tail != "" {
          FirstKept(prefixes, tail);
        }
        MaskedPiece(prefixes, k, Redacted(prefixes, tail));
      } else {
        RedactedIsMasked(prefixes, t[1..]);
        PlainPiece(prefixes, t);
      }
    }
  }

  lemma PlainPiece(prefixes: seq<string>, t: string)
    requires Distinctive(prefixes) && t != "" && FirstPrefix(prefixes, t) == |prefixes|
    requires AllMasked(prefixes, Redacted(prefixes, t[1..]))
    ensures AllMasked(prefixes, Redacted(prefixes, t))
  {
    var inner := Redacted(prefixes, t[1..]);
    var out := Redacted(prefixes, t);
    assert out == [t[0]] + inner;
    forall i | 0 <= i <= |out| ensures MaskedAt(prefixes, out[i..]) {
      if i > 0 {
        assert out[i..] == inner[i - 1..];
      } else {
        assert out[0..] == out;
        PlainHead(prefixes, t);
      }
    }
  }

  /** Where no prefix starts, none starts after redaction. */
  lemma PlainHead(prefixes: seq<string>, t: string)
    requires Distinctive(prefixes) && t != "" && FirstPrefix(prefixes, t) == |prefixes|
    ensures forall k | 0 <= k < |prefixes| :: !(prefixes[k] <= Redacted(prefixes, t))
  {
    var inner := Redacted(prefixes, t[1..]);
    assert t == [t[0]] + t[1..];
    forall k | 0 <= k < |prefixes| ensures !(prefixes[k] <= [t[0]] + inner) {
      StartsAtHead(prefixes[k], t[0], inner);
      StartsAtHead(prefixes[k], t[0], t[1..]);
      if prefixes[k][1..] <= inner {
        NoPrefixCompleted(prefixes, k, 1, t[1..]);
      }
    }
  }

  lemma StartsAtHead(p: string, c: char, rest: string)
    requires p != ""
    ensures p <= [c] + rest <==> p[0] == c && p[1..] <= rest
  {
    assert p == [p[0]] + p[1..];
  }

  lemma MaskedPiece(prefixes: seq<string>, k: nat, rest: string)
    requires Distinctive(prefixes) && k < |prefixes| && AllMasked(prefixes, rest)
    requires rest != "" ==> EndsToken(rest[0])
    ensures AllMasked(prefixes, prefixes[k] + MASK + rest)
  {
    var out, n := prefixes[k] + MASK + rest, |prefixes[k]|;
    forall i | 0 <= i <= |out| ensures MaskedAt(prefixes, out[i..]) {
      if i >= n + |MASK| {
        assert out[i..] == rest[i - n - |MASK|..];
      } else if i > 0 {
        forall j | 0 <= j < |prefixes| ensures !(prefixes[j] <= out[i..]) {
          NoPrefixInside(prefixes, k, rest, i, j);
        }
      } else {
        forall j | 0 <= j < |prefixes| && prefixes[j] <= out[i..] ensures Masked(out[i..][|prefixes[j]|..]) {
          SamePrefix(prefixes, k, MASK + rest, j);
          assert out[i..][n..] == MASK + rest;
        }
      }
    }
  }

  lemma SamePrefix(prefixes: seq<string>, k: nat, rest: string, j: nat)
    requires Distinctive(prefixes) && k < |prefixes| && j < |prefixes|
    requires prefixes[j] <= prefixes[k] + rest
    ensures prefixes[j] == prefixes[k]
  {
    OneStartsTheOther(prefixes[j], prefixes[k], prefixes[k] + rest);
    assert prefixes[j][0..] == prefixes[j] && prefixes[k][0..] == prefixes[k];
  }

  /** Redaction changes a text exactly when some prefix in it is not yet masked. */
  lemma KeptExactly(prefixes: seq<string>, t: string)
    requires Distinctive(prefixes)
    ensures Redacted(prefixes, t) == t <==> AllMasked(prefixes, t)
  {
    RedactedIsMasked(prefixes, t);
    if AllMasked(prefixes, t) {
      MaskedTextIsKept(prefixes, t);
    }
  }

  lemma RedactTwice(prefixes: seq<string>, t: string)
    requires Distinctive(prefixes)
    ensures Redacted(prefixes, Redacted(prefixes, t)) == Redacted(prefixes, t)
  {
    RedactedIsMasked(prefixes, t);
    MaskedTextIsKept(prefixes, Redacted(prefixes, t));
  }

  // ----- nothing but the tokens is touched -----

  datatype Piece = Plain(ch: char) | Secret(prefix: string, token: string)

  /** A token ends at a quote, an apostrophe, a comma, a closing brace or white space. */
  lemma TokensEndAt(c: char)
    ensures c in {'"', '\'', ',', '}', ' ', '\t', '\n', '\r'} ==> EndsToken(c)
    ensures EndsToken(c) ==> c in {'"', '\'', ',', '}'} || c <= ' ' || c >= '\U{85}'
    ensures '!' <= c <= '~' && EndsToken(c) ==> c in {'"', '\'', ',', '}'}
  {
  }

  /** The text that the pieces make, and the text with every token masked. */
  function Whole(pieces: seq<Piece>): string {
    if pieces == [] then ""
    else (if pieces[0].Plain? then [pieces[0].ch] else pieces[0].prefix + pieces[0].token) + Whole(pieces[1..])
  }

  function WithMasks(pieces: seq<Piece>): string {
    if pieces == [] then ""
    else (if pieces[0].Plain? then [pieces[0].ch] else pieces[0].prefix + "[redacted]") + WithMasks(pieces[1..])
  }

  /** A secret piece is the first listed prefix that fits and the whole token after it; at a plain
      character no prefix fits. */
  ghost predicate PieceFits(prefixes: seq<string>, piece: Piece, t: string) {
    if piece.Plain? then t != "" && t[0] == piece.ch && forall k | 0 <= k < |prefixes| :: !(prefixes[k] <= t)
    else
      && piece.prefix + piece.token <= t && (forall c | c in piece.token :: !EndsToken(c))
      && (|piece.prefix + piece.token| < |t| ==> EndsToken(t[|piece.prefix + piece.token|]))
      && exists k | 0 <= k < |prefixes| ::
           prefixes[k] == piece.prefix && forall j | 0 <= j < k :: !(prefixes[j] <= t)
  }

  ghost predicate PiecesFit(prefixes: seq<string>, pieces: seq<Piece>) {
    pieces != [] ==> PieceFits(prefixes, pieces[0], Whole(pieces)) && PiecesFit(prefixes, pieces[1..])
  }

  lemma SecretPiece(prefixes: seq<string>, t: string, k: nat) returns (piece: Piece)
    requires k < |prefixes| && k == FirstPrefix(prefixes, t)
    ensures piece.Secret? && piece.prefix == prefixes[k] && PieceFits(prefixes, piece, t)
    ensures piece.token == t[|prefixes[k]|..][..TokenLength(t[|prefixes[k]|..])]
  {
    var rest := t[|prefixes[k]|..];
    var token := rest[..TokenLength(rest)];
    piece := Secret(prefixes[k], token);
    assert t == prefixes[k] + token + rest[TokenLength(rest)..];
  }

  /** The pieces make the text, and with masks its redaction. */
  ghost predicate Makes(prefixes: seq<string>, pieces: seq<Piece>, t: string)
    requires NoneEmpty(prefixes)
  {
    Whole(pieces) == t && WithMasks(pieces) == Redacted(prefixes, t) && PiecesFit(prefixes, pieces)
  }

  lemma PlainFirst(prefixes: seq<string>, t: string, more: seq<Piece>)
    requires NoneEmpty(prefixes) && t != "" && FirstPrefix(prefixes, t) == |prefixes|
    requires Makes(prefixes, more, t[1..])
    ensures Makes(prefixes, [Plain(t[0])] + more, t)
  {
    assert ([Plain(t[0])] + more)[1..] == more;
    assert t == [t[0]] + t[1..];
  }

  lemma SecretFirst(prefixes: seq<string>, t: string, k: nat, more: seq<Piece>)
    requires NoneEmpty(prefixes) && k < |prefixes| && FirstPrefix(prefixes, t) == k
    requires var rest := t[|prefixes[k]|..]; Makes(prefixes, more, rest[TokenLength(rest)..])
    ensures var rest := t[|prefixes[k]|..];
      Makes(prefixes, [Secret(prefixes[k], rest[..TokenLength(rest)])] + more, t)
  {
    var piece := SecretPiece(prefixes, t, k);
    SecretIsMasked(prefixes, t, k);
    SecretMore(piece, more);
    assert ([piece] + more)[1..] == more;
  }

  lemma SecretMore(piece: Piece, more: seq<Piece>)
    requires piece.Secret?
    ensures Whole([piece] + more) == piece.prefix + piece.token + Whole(more)
    ensures WithMasks([piece] + more) == piece.prefix + MASK + WithMasks(more)
  {
    assert ([piece] + more)[1..] == more;
  }

  lemma SplitTwice(t: string, a: nat, n: nat)
    requires a + n <= |t|
    ensures t == t[..a] + t[a..][..n] + t[a..][n..]
  {
    assert t == t[..a] + t[a..];
    assert t[a..] == t[a..][..n] + t[a..][n..];
  }

  lemma SecretIsMasked(prefixes: seq<string>, t: string, k: nat)
    requires NoneEmpty(prefixes) && k < |prefixes| && FirstPrefix(prefixes, t) == k
    ensures var rest := t[|prefixes[k]|..];
      && Redacted(prefixes, t) == prefixes[k] + MASK + Redacted(prefixes, rest[TokenLength(rest)..])
      && t == prefixes[k] + rest[..TokenLength(rest)] + rest[TokenLength(rest)..]
  {
    assert prefixes[k] != "" && t[..|prefixes[k]|] == prefixes[k];
    SplitTwice(t, |prefixes[k]|, TokenLength(t[|prefixes[k]|..]));
  }

  /** A text is made of pieces, whatever the prefixes, so that its redaction is the text with the
      token of every secret piece masked and all else as it was. */
  lemma {:induction false} RedactsOnlyTokens(prefixes: seq<string>, t: string) returns (pieces: seq<Piece>)
    requires NoneEmpty(prefixes)
    ensures Whole(pieces) == t && WithMasks(pieces) == Redacted(prefixes, t) && PiecesFit(prefixes, pieces)
    decreases |t|
  {
    pieces := [];
    if t != "" {
      var k := FirstPrefix(prefixes, t);
      if k < |prefixes| {
        var rest := t[|prefixes[k]|..];
        var more := RedactsOnlyTokens(prefixes, rest[TokenLength(rest)..]);
        SecretFirst(prefixes, t, k, more);
        pieces := [Secret(prefixes[k], rest[..TokenLength(rest)])] + more;
      } else {
        var more := RedactsOnlyTokens(prefixes, t[1..]);
        PlainFirst(prefixes, t, more);
        pieces := [Plain(t[0])] + more;
      }
    }
  }

  const PREFIXES := ["Bearer ", "bearer ", "Key ", "key "]

  lemma NoneInsideAnother()
    ensures forall j, k, i | 0 <= j < 4 && 0 <= k < 4 && 0 <= i < |PREFIXES[j]| && PREFIXES[k] <= PREFIXES[j][i..] ::
      i == 0 && PREFIXES[k] == PREFIXES[j]
  {
    forall j, k, i | 0 <= j < 4 && 0 <= k < 4 && 0 <= i < |PREFIXES[j]| && PREFIXES[k] <= PREFIXES[j][i..]
      ensures i == 0 && PREFIXES[k] == PREFIXES[j]
    {
      assert PREFIXES[k][0] == PREFIXES[j][i];
    }
  }

  lemma TheFourPrefixes()
    ensures Distinctive(PREFIXES)
  {
    NoneInsideAnother();
    forall k | 0 <= k < 4 ensures exists c :: c in PREFIXES[k] && EndsToken(c) {
      assert ' ' in PREFIXES[k] && EndsToken(' ');
    }
  }

  /** What callers get: nothing after "Bearer ", "bearer ", "Key " or "key " but the mask. */
  lemma GatewayTextIsMasked(t: string)
    ensures NoneEmpty(PREFIXES) && AllMasked(PREFIXES, Redacted(PREFIXES, t))
    ensures Redacted(PREFIXES, Redacted(PREFIXES, t)) == Redacted(PREFIXES, t)
  {
    TheFourPrefixes();
    RedactedIsMasked(PREFIXES, t);
    RedactTwice(PREFIXES, t);
  }
}
