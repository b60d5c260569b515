/** The comment and trailing-comma stripper: it overwrites a byte buffer in place, so that positions
    in the cleaned text are positions in the original. */
module Json5 {
  import opened Basics

  const SPACE: Byte := 0x20
  const TAB: Byte := 0x09
  const NEWLINE: Byte := 0x0A
  const RETURN: Byte := 0x0D
  const QUOTE: Byte := 0x22
  const STAR: Byte := 0x2A
  const COMMA: Byte := 0x2C
  const SLASH: Byte := 0x2F
  const CLOSE_BRACKET: Byte := 0x5D
  const BACKSLASH: Byte := 0x5C
  const CLOSE_BRACE: Byte := 0x7D

  predicate IsNL(c: Byte) { c == NEWLINE || c == RETURN }

  predicate IsWS(c: Byte) { c == SPACE || c == TAB || IsNL(c) }

  predicate IsCloser(c: Byte) { c == CLOSE_BRACE || c == CLOSE_BRACKET }

  /** `t` is `s` with some bytes blanked. */
  predicate Blanks(s: Bytes, t: Bytes) {
    |t| == |s| && forall k :: 0 <= k < |s| ==> t[k] == s[k] || t[k] == SPACE
  }

  /** A buffer and a position in it, or past its end. */
  datatype Cursor = Cursor(bytes: Bytes, at: nat)

  // ---------- what the loops do ----------

  function Line(s: Bytes, i: nat): (c: Cursor)
    ensures |c.bytes| == |s| && c.at >= i
    decreases |s| - i
  {
    if i >= |s| || IsNL(s[i]) then Cursor(s, i) else Line(s[i := SPACE], i + 1)
  }

  function Block(s: Bytes, i: nat): (c: Cursor)
    ensures |c.bytes| == |s| && c.at >= i
    decreases |s| - i
  {
    if i >= |s| then Cursor(s, i)
    else
      var t := s[i := SPACE];
      if s[i] != STAR then Block(t, i + 1)
      else if i + 1 < |s| && s[i + 1] == SLASH then Cursor(t[i + 1 := SPACE], i + 1)
      else Block(t, i + 2)
  }

  /** What follows a slash at `i - 1`. */
  function Comment(s: Bytes, i: nat): (c: Cursor)
    requires 0 < i <= |s|
    ensures |c.bytes| == |s| && c.at >= i
  {
    var c := if i < |s| && s[i] == SLASH then Line(s[i - 1 := SPACE], i) else Cursor(s, i);
    if c.at < |s| && c.bytes[c.at] == STAR then Block(c.bytes[c.at - 1 := SPACE][c.at := SPACE], c.at) else c
  }

  function StringEnd(s: Bytes, i: nat): (e: nat)
    ensures e >= i
    decreases |s| - i
  {
    if i >= |s| then i
    else if s[i] == QUOTE then i + 1
    else if s[i] == BACKSLASH then StringEnd(s, i + 2)
    else StringEnd(s, i + 1)
  }

  /** Looks past `i` for what follows the comma at `j`. */
  function AfterComma(s: Bytes, j: nat, i: nat): (c: Cursor)
    requires j < |s|
    ensures |c.bytes| == |s| && c.at > i
    decreases |s| - i
  {
    var n := i + 1;
    if n >= |s| then Cursor(s, n)
    else if IsCloser(s[n]) then Cursor(s[j := SPACE], n)
    else if s[n] == SLASH then
      var c := Comment(s, n + 1);
      AfterComma(c.bytes, j, c.at)
    else if !IsWS(s[n]) then Cursor(s, n)
    else AfterComma(s, j, n)
  }

  /** The stripping from position `i` on. */
  function Strip(s: Bytes, i: nat): (t: Bytes)
    ensures |t| == |s|
    decreases |s| - i
  {
    if i >= |s| then s
    else if s[i] == QUOTE then Strip(s, StringEnd(s, i + 1))
    else if s[i] == SLASH then Strip(Comment(s, i + 1).bytes, Comment(s, i + 1).at)
    else if s[i] == COMMA then Strip(AfterComma(s, i, i).bytes, AfterComma(s, i, i).at)
    else Strip(s, i + 1)
  }

  // ---------- the loops ----------

  method EraseLine(s: array<Byte>, start: nat) returns (i: nat)
    requires start <= s.Length
    modifies s
    ensures i <= s.Length && Cursor(s[..], i) == Line(old(s[..]), start)
  {
    i := start;
    while i < s.Length && !IsNL(s[i])
      invariant start <= i <= s.Length && Line(s[..], i) == Line(old(s[..]), start)
    {
      s[i] := SPACE;
      i := i + 1;
    }
  }

  method EraseBlock(s: array<Byte>, start: nat) returns (i: nat)
    requires start <= s.Length
    modifies s
    ensures Cursor(s[..], i) == Block(old(s[..]), start)
  {
    i := start;
    while i < s.Length
      invariant i <= s.Length + 1 && Block(s[..], i) == Block(old(s[..]), start)
    {
      if s[i] != STAR {
        s[i] := SPACE;
      } else {
        s[i] := SPACE;
        i := i + 1;
        if i < s.Length {
          if s[i] == SLASH {
            s[i] := SPACE;
            break;
          }
        }
      }
      i := i + 1;
    }
  }

  method ConsumeComment(s: array<Byte>, start: nat) returns (i: nat)
    requires 0 < start <= s.Length
    modifies s
    ensures Cursor(s[..], i) == Comment(old(s[..]), start)
  {
    i := start;
    if i < s.Length && s[i] == SLASH {
      s[i - 1] := SPACE;
      i := EraseLine(s, i);
    }
    if i < s.Length && s[i] == STAR {
      s[i - 1] := SPACE;
      s[i] := SPACE;
      i := EraseBlock(s, i);
    }
  }

  method Prep(s: array<Byte>)
    modifies s
    ensures s[..] == Strip(old(s[..]), 0)
  {
    var i := 0;
    while i < s.Length
      invariant Strip(s[..], i) == Strip(old(s[..]), 0)
      decreases s.Length - i
    {
      ghost var before, at := s[..], i;
      if s[i] == QUOTE {
        i := i + 1;
        while i < s.Length
          invariant i > at && s[..] == before && StringEnd(before, i) == StringEnd(before, at + 1)
        {
          if s[i] == QUOTE {
            i := i + 1;
            break;
          } else if s[i] == BACKSLASH {
            i := i + 1;
          }
          i := i + 1;
        }
      } else if s[i] == SLASH {
        i := ConsumeComment(s, i + 1);
      } else if s[i] == COMMA {
        i := SkipToNext(s, i);
      } else {
        i := i + 1;
      }
    }
  }

  /** The look-ahead after a comma at `j`. */
  method SkipToNext(s: array<Byte>, j: nat) returns (i: nat)
    requires j < s.Length
    modifies s
    ensures Cursor(s[..], i) == AfterComma(old(s[..]), j, j)
  {
    i := j;
    while true
      invariant AfterComma(s[..], j, i) == AfterComma(old(s[..]), j, j)
      decreases s.Length - i
    {
      i := i + 1;
      if i >= s.Length {
        break;
      } else if IsCloser(s[i]) {
        s[j] := SPACE;
        break;
      } else if s[i] == SLASH {
        i := ConsumeComment(s, i + 1);
      } else if !IsWS(s[i]) {
        break;
      }
    }
  }

  // ---------- what stripping means ----------

  lemma {:induction false} LineBlanks(s: Bytes, i: nat)
    ensures Blanks(s, Line(s, i).bytes)
    decreases |s| - i
  {
    if i < |s| && !IsNL(s[i]) {
      LineBlanks(s[i := SPACE], i + 1);
    }
  }

  lemma {:induction false} BlockBlanks(s: Bytes, i: nat)
    ensures Blanks(s, Block(s, i).bytes)
    decreases |s| - i
  {
    if i < |s| {
      BlockBlanks(s[i := SPACE], if s[i] != STAR then i + 1 else i + 2);
    }
  }

  lemma CommentBlanks(s: Bytes, i: nat)
    requires 0 < i <= |s|
    ensures Blanks(s, Comment(s, i).bytes)
  {
    var c := if i < |s| && s[i] == SLASH then Line(s[i - 1 := SPACE], i) else Cursor(s, i);
    LineBlanks(s[i - 1 := SPACE], i);
    if c.at < |s| && c.bytes[c.at] == STAR {
      BlockBlanks(c.bytes[c.at - 1 := SPACE][c.at := SPACE], c.at);
    }
  }

  lemma {:induction false} AfterCommaBlanks(s: Bytes, j: nat, i: nat)
    requires j < |s|
    ensures Blanks(s, AfterComma(s, j, i).bytes)
    decreases |s| - i
  {
    var n := i + 1;
    if n < |s| && !IsCloser(s[n]) {
      if s[n] == SLASH {
        CommentBlanks(s, n + 1);
        AfterCommaBlanks(Comment(s, n + 1).bytes, j, Comment(s, n + 1).at);
      } else if IsWS(s[n]) {
        AfterCommaBlanks(s, j, n);
      }
    }
  }

  /** Whatever the text, the stripper keeps its length and writes nothing but spaces. */
  lemma {:induction false} StripOnlyBlanks(s: Bytes, i: nat)
    ensures Blanks(s, Strip(s, i))
    decreases |s| - i
  {
    if i < |s| {
      if s[i] == QUOTE {
        StripOnlyBlanks(s, StringEnd(s, i + 1));
      } else if s[i] == SLASH {
        CommentBlanks(s, i + 1);
        StripOnlyBlanks(Comment(s, i + 1).bytes, Comment(s, i + 1).at);
      } else if s[i] == COMMA {
        AfterCommaBlanks(s, i, i);
        StripOnlyBlanks(AfterComma(s, i, i).bytes, AfterComma(s, i, i).at);
      } else {
        StripOnlyBlanks(s, i + 1);
      }
    }
  }

  /** Where a byte stands with respect to strings: outside, inside, or after a backslash inside. */
  datatype Mode = Outside | Inside | Escaped

  function Next(m: Mode, c: Byte): Mode {
    match m
    case Outside => if c == QUOTE then Inside else Outside
    case Inside => if c == QUOTE then Outside else if c == BACKSLASH then Escaped else Inside
    case Escaped => Inside
  }

  /** The mode before byte `k`. */
  function ModeAt(s: Bytes, k: nat): Mode
    requires k <= |s|
  {
    if k == 0 then Outside else Next(ModeAt(s, k - 1), s[k - 1])
  }

  /** No comment can begin outside the strings. */
  predicate CommentFree(s: Bytes) { forall k :: 0 <= k < |s| && ModeAt(s, k).Outside? ==> s[k] != SLASH }

  /** Nothing but white space lies between `k` and `n`. */
  predicate OnlyWS(s: Bytes, k: nat, n: nat)
    requires n <= |s|
  {
    forall m :: k < m < n ==> IsWS(s[m])
  }

  /** A comma outside the strings whose next byte that is no white space closes an array or an object. */
  predicate Trailing(s: Bytes, k: nat)
    requires k < |s|
  {
    s[k] == COMMA && ModeAt(s, k).Outside? &&
    exists n {:trigger OnlyWS(s, k, n)} :: k < n < |s| && OnlyWS(s, k, n) && IsCloser(s[n])
  }

  /** The text without its trailing commas. */
  predicate Cleaned(s: Bytes, t: Bytes) {
    |t| == |s| && forall k :: 0 <= k < |s| ==> t[k] == if Trailing(s, k) then SPACE else s[k]
  }

  /** The buffer `b` is cleaned up to `i` and still the text `s` from there. */
  predicate HalfWay(s: Bytes, b: Bytes, i: nat) {
    |b| == |s| && forall k :: 0 <= k < |s| ==> b[k] == if k < i && Trailing(s, k) then SPACE else s[k]
  }

  /** The string scan ends where the string does. */
  lemma {:induction false} StringIsSkipped(s: Bytes, b: Bytes, i: nat)
    requires |b| == |s| && forall k :: i <= k < |s| ==> b[k] == s[k]
    requires i < |s| ==> ModeAt(s, i).Inside?
    ensures var e := StringEnd(b, i);
            && (forall k :: i <= k < e && k < |s| ==> !ModeAt(s, k).Outside?)
            && (e < |s| ==> ModeAt(s, e).Outside?)
    decreases |s| - i
  {
    if i < |s| {
      if b[i] == QUOTE {
      } else if b[i] == BACKSLASH {
        if i + 1 < |s| {
          assert ModeAt(s, i + 1).Escaped?;
        }
        StringIsSkipped(s, b, i + 2);
      } else {
        StringIsSkipped(s, b, i + 1);
      }
    }
  }

  /** The first byte after a comma that is no white space decides about it. */
  lemma NextByteDecides(s: Bytes, j: nat, n: nat)
    requires j < n <= |s| && s[j] == COMMA && ModeAt(s, j).Outside?
    requires OnlyWS(s, j, n) && (n < |s| ==> !IsWS(s[n]))
    ensures Trailing(s, j) <==> n < |s| && IsCloser(s[n])
  {
    if Trailing(s, j) {
      var e :| j < e < |s| && OnlyWS(s, j, e) && IsCloser(s[e]);
      assert e >= n && (n < |s| ==> e == n);
    }
  }

  lemma PastTheComma(s: Bytes, b: Bytes, j: nat, n: nat, t: Bytes)
    requires HalfWay(s, b, j) && j < n <= |s| && OnlyWS(s, j, n)
    requires t == if Trailing(s, j) then b[j := SPACE] else b
    ensures HalfWay(s, t, n)
  {
    assert forall k :: j < k < n ==> !Trailing(s, k);
  }

  lemma CommaIsDecided(s: Bytes, b: Bytes, j: nat, i: nat)
    requires HalfWay(s, b, j) && j <= i < |s| && s[j] == COMMA && ModeAt(s, j).Outside? && OnlyWS(s, j, i + 1)
    requires i + 1 < |s| ==> !IsWS(s[i + 1]) && s[i + 1] != SLASH
    ensures AfterComma(b, j, i).at == i + 1 && HalfWay(s, AfterComma(b, j, i).bytes, i + 1)
  {
    var n := i + 1;
    NextByteDecides(s, j, n);
    assert n < |s| ==> b[n] == s[n];
    var t: Bytes := if Trailing(s, j) then b[j := SPACE] else b;
    assert AfterComma(b, j, i) == Cursor(t, n);
    PastTheComma(s, b, j, n, t);
  }

  lemma NotPassedYet(s: Bytes, b: Bytes, j: nat, n: nat)
    requires CommentFree(s) && HalfWay(s, b, j) && j < n < |s| && ModeAt(s, n).Outside?
    ensures b[n] == s[n] && s[n] != SLASH
  {
  }

  lemma WhiteIsPassed(s: Bytes, b: Bytes, j: nat, i: nat)
    requires |b| == |s| && j <= i && i + 1 < |s| && b[i + 1] == s[i + 1] && IsWS(s[i + 1])
    requires ModeAt(s, i + 1).Outside? && OnlyWS(s, j, i + 1)
    ensures ModeAt(s, i + 2).Outside? && OnlyWS(s, j, i + 2) && AfterComma(b, j, i) == AfterComma(b, j, i + 1)
  {
  }

  /** The look-ahead finds out whether a comma is a trailing one. */
  lemma {:induction false} CommaIsJudged(s: Bytes, b: Bytes, j: nat, i: nat)
    requires CommentFree(s) && HalfWay(s, b, j) && j <= i < |s| && s[j] == COMMA && ModeAt(s, j).Outside?
    requires ModeAt(s, i + 1).Outside? && OnlyWS(s, j, i + 1)
    ensures var c := AfterComma(b, j, i);
            && HalfWay(s, c.bytes, c.at) && (c.at < |s| ==> ModeAt(s, c.at).Outside?)
    decreases |s| - i
  {
    if i + 1 < |s| {
      NotPassedYet(s, b, j, i + 1);
    }
    if i + 1 < |s| && IsWS(s[i + 1]) {
      WhiteIsPassed(s, b, j, i);
      CommaIsJudged(s, b, j, i + 1);
    } else {
      CommaIsDecided(s, b, j, i);
    }
  }

  lemma {:induction false} StripsOn(s: Bytes, b: Bytes, i: nat)
    requires CommentFree(s) && HalfWay(s, b, i) && (i < |s| ==> ModeAt(s, i).Outside?)
    ensures Cleaned(s, Strip(b, i))
    decreases |s| - i
  {
    if i < |s| {
      assert b[i] == s[i] && s[i] != SLASH;
      if s[i] == QUOTE {
        StringIsSkipped(s, b, i + 1);
        var e := StringEnd(b, i + 1);
        assert forall k :: i <= k < e && k < |s| ==> !Trailing(s, k);
        StripsOn(s, b, e);
      } else if s[i] == COMMA {
        CommaIsJudged(s, b, i, i);
        StripsOn(s, AfterComma(b, i, i).bytes, AfterComma(b, i, i).at);
      } else {
        assert !Trailing(s, i);
        StripsOn(s, b, i + 1);
      }
    }
  }

  /** On a text without comments the stripper blanks exactly the trailing commas outside strings. */
  lemma StripRemovesTrailingCommas(s: Bytes)
    requires CommentFree(s)
    ensures Cleaned(s, Strip(s, 0))
  {
    StripsOn(s, s, 0);
  }

  // ---------- comments ----------

  /** `t` is `s` with exactly the bytes from `lo` to `hi` blanked. */
  predicate Erased(s: Bytes, t: Bytes, lo: nat, hi: nat) {
    |t| == |s| && forall k :: 0 <= k < |s| ==> t[k] == if lo <= k < hi then SPACE else s[k]
  }

  lemma {:induction false} LineErases(s: Bytes, i: nat, hi: nat)
    requires i <= hi <= |s| && (forall k :: i <= k < hi ==> !IsNL(s[k])) && (hi < |s| ==> IsNL(s[hi]))
    ensures Line(s, i).at == hi && Erased(s, Line(s, i).bytes, i, hi)
    decreases hi - i
  {
    if i < hi {
      LineErases(s[i := SPACE], i + 1, hi);
    }
  }

  /** A line comment is erased up to the end of its line, which stays. */
  lemma LineCommentIsErased(s: Bytes, i: nat, hi: nat)
    requires 0 < i < hi <= |s| && s[i] == SLASH
    requires (forall k :: i <= k < hi ==> !IsNL(s[k])) && (hi < |s| ==> IsNL(s[hi]))
    ensures Comment(s, i).at == hi && Erased(s, Comment(s, i).bytes, i - 1, hi)
  {
    LineErases(s[i - 1 := SPACE], i, hi);
  }

  /** The first star with a slash behind it, from `i` on, is at `hi`. */
  predicate EndsAt(s: Bytes, i: nat, hi: nat) {
    && i <= hi && hi + 1 < |s| && s[hi] == STAR && s[hi + 1] == SLASH
    && forall k :: i <= k < hi && s[k] == STAR ==> s[k + 1] != SLASH
  }

  /** Every star before `hi` has a space behind it. */
  predicate Spaced(s: Bytes, i: nat, hi: nat)
    requires hi < |s|
  {
    forall k :: i <= k < hi && s[k] == STAR ==> s[k + 1] == SPACE
  }

  lemma ErasedFurther(s: Bytes, t: Bytes, i: nat, j: nat, hi: nat)
    requires i <= j <= hi <= |s| == |t| && forall k :: i <= k < j ==> t[k] == SPACE
    requires i < j && (j == i + 1 || (j == i + 2 && s[i + 1] == SPACE))
    ensures Erased(s, t, i, hi) <==> Erased(s[i := SPACE], t, j, hi)
  {
    if Erased(s[i := SPACE], t, j, hi) {
      forall k | 0 <= k < |s| ensures t[k] == if i <= k < hi then SPACE else s[k] {
        assert t[k] == if j <= k < hi then SPACE else s[i := SPACE][k];
      }
    }
  }

  lemma SpacedFurther(s: Bytes, t: Bytes, i: nat, j: nat, hi: nat)
    requires i <= j <= hi < |s| == |t| && forall k :: j <= k < |s| ==> t[k] == s[k]
    requires forall k :: i <= k < j && s[k] == STAR ==> s[k + 1] == SPACE
    ensures Spaced(s, i, hi) <==> Spaced(t, j, hi)
  {
    if Spaced(s, i, hi) {
      forall k | j <= k < hi && t[k] == STAR ensures t[k + 1] == SPACE {
        assert s[k] == STAR;
      }
    }
    if Spaced(t, j, hi) {
      forall k | i <= k < hi && s[k] == STAR ensures s[k + 1] == SPACE {
        assert k >= j ==> t[k] == STAR;
      }
    }
  }

  lemma {:induction false} BlockErasesExactlyWhen(s: Bytes, i: nat, hi: nat)
    requires EndsAt(s, i, hi)
    ensures (Block(s, i).at == hi + 1 && Erased(s, Block(s, i).bytes, i, hi + 2)) <==> Spaced(s, i, hi)
    decreases hi - i
  {
    var t, r := s[i := SPACE], Block(s, i).bytes;
    if i == hi {
      assert Erased(s, r, i, hi + 2);
    } else if s[i] != STAR || s[i + 1] == SPACE {
      var j := if s[i] != STAR then i + 1 else i + 2;
      assert s[i] == STAR ==> i + 1 != hi;
      BlockErasesExactlyWhen(t, j, hi);
      BlockLeavesFront(t, j, i);
      if j == i + 2 {
        BlockLeavesFront(t, j, i + 1);
      }
      ErasedFurther(s, r, i, j, hi + 2);
      SpacedFurther(s, t, i, j, hi);
    } else {
      BlockLeavesFront(t, i + 2, i + 1);
      assert !Spaced(s, i, hi) && r[i + 1] != SPACE;
    }
  }

  /** A slash that begins no comment is left alone. */
  lemma LoneSlashStays(s: Bytes, i: nat)
    requires i < |s| && s[i] == SLASH && (i + 1 < |s| ==> s[i + 1] != SLASH && s[i + 1] != STAR)
    ensures Strip(s, i) == Strip(s, i + 1)
  {
    assert Comment(s, i + 1) == Cursor(s, i + 1);
  }

  /** A block comment, from its slash to the first star and slash after its opening mark, is erased and the
      scan stops on its last byte if and only if every star inside it has a space behind it. */
  lemma BlockCommentIsErasedExactlyWhen(s: Bytes, i: nat, hi: nat)
    requires 0 < i < |s| && s[i] == STAR && EndsAt(s, i + 1, hi)
    ensures (Comment(s, i).at == hi + 1 && Erased(s, Comment(s, i).bytes, i - 1, hi + 2)) <==> Spaced(s, i + 1, hi)
  {
    var t: Bytes := s[i - 1 := SPACE][i := SPACE];
    assert Comment(s, i) == Block(t, i);
    BlockErasesExactlyWhen(t, i, hi);
    BlockLeavesFront(t, i, i - 1);
    SpacedFurther(t, s, i, i + 1, hi);
    assert Erased(t, Block(t, i).bytes, i, hi + 2) <==> Erased(s, Block(t, i).bytes, i - 1, hi + 2) by {
      OpeningErased(s, t, Block(t, i).bytes, i, hi);
    }
  }

  /** Which bytes may stand between a comma and a closer for the comma to go, and which bytes close: tab, line
      feed, carriage return, space; and both brackets. */
  lemma OneByteBetween(w: Byte, z: Byte)
    requires w != SLASH && z != SLASH
    ensures AfterComma([COMMA, w, z], 0, 0).bytes[0] == SPACE <==>
              || w == 0x5D || w == 0x7D
              || ((w == 0x09 || w == 0x0A || w == 0x0D || w == 0x20) && (z == 0x5D || z == 0x7D))
  {
    var s := [COMMA, w, z];
    if !IsCloser(w) && IsWS(w) {
      assert AfterComma(s, 0, 0) == AfterComma(s, 0, 1);
      if !IsCloser(z) && IsWS(z) {
        assert AfterComma(s, 0, 1) == AfterComma(s, 0, 2) == Cursor(s, 3);
      }
    }
  }

  /** A line comment ends with a line feed or a carriage return. */
  lemma LineEndsAt(e: Byte, z: Byte)
    requires z != STAR && e != STAR
    ensures Comment([SLASH, SLASH, e, z], 1).at == 2 <==> e == 0x0A || e == 0x0D
  {
    var s: Bytes := [SLASH, SLASH, e, z][0 := SPACE];
    var t := s[1 := SPACE];
    assert Line(s, 1) == Line(t, 2);
    assert IsNL(e) ==> Line(t, 2) == Cursor(t, 2);
    assert !IsNL(e) ==> Line(t, 2) == Line(t[2 := SPACE], 3);
  }

  lemma OpeningErased(s: Bytes, t: Bytes, r: Bytes, i: nat, hi: nat)
    requires 0 < i < hi && hi + 1 < |s| && t == s[i - 1 := SPACE][i := SPACE] && |r| == |s| && r[i - 1] == SPACE
    ensures Erased(t, r, i, hi + 2) <==> Erased(s, r, i - 1, hi + 2)
  {
    if Erased(t, r, i, hi + 2) {
      forall k | 0 <= k < |s| ensures r[k] == if i - 1 <= k < hi + 2 then SPACE else s[k] {
        assert r[k] == if i <= k < hi + 2 then SPACE else t[k];
      }
    }
  }

  /** In particular a comment does not end with two stars and a slash: the second star is skipped unseen.
      With no star after it, everything up to the end of the text is erased but that star. */
  lemma TwoStarsDoNotEnd(s: Bytes, i: nat, hi: nat)
    requires 0 < i && i + 1 < hi && hi + 1 < |s| && s[i] == STAR
    requires s[hi - 1] == STAR && s[hi] == STAR && s[hi + 1] == SLASH && Spaced(s, i + 1, hi - 1)
    requires forall k :: hi < k < |s| ==> s[k] != STAR
    ensures var c := Comment(s, i); c.at == |s| && c.bytes[hi] == STAR && forall k :: hi < k < |s| ==> c.bytes[k] == SPACE
  {
    var t: Bytes := s[i - 1 := SPACE][i := SPACE];
    assert Comment(s, i) == Block(t, i);
    SkipsTheSecondStar(t, i, hi);
  }

  lemma {:induction false} SkipsTheSecondStar(s: Bytes, i: nat, hi: nat)
    requires i < hi && hi < |s| && s[hi - 1] == STAR && s[hi] == STAR && Spaced(s, i, hi - 1)
    requires forall k :: hi < k < |s| ==> s[k] != STAR
    ensures var c := Block(s, i); c.at == |s| && c.bytes[hi] == STAR && forall k :: hi < k < |s| ==> c.bytes[k] == SPACE
    decreases hi - i
  {
    if i == hi - 1 {
      NoStarNoEnd(s[i := SPACE], hi + 1);
    } else {
      SkipsTheSecondStar(s[i := SPACE], if s[i] == STAR then i + 2 else i + 1, hi);
    }
  }

  lemma {:induction false} NoStarNoEnd(s: Bytes, i: nat)
    requires i <= |s| && forall k :: i <= k < |s| ==> s[k] != STAR
    ensures Block(s, i).at == |s| && Erased(s, Block(s, i).bytes, i, |s|)
    decreases |s| - i
  {
    if i < |s| {
      NoStarNoEnd(s[i := SPACE], i + 1);
    }
  }

  lemma {:induction false} BlockLeavesFront(s: Bytes, i: nat, k: nat)
    requires k < i && k < |s|
    ensures Block(s, i).bytes[k] == s[k]
    decreases |s| - i
  {
    if i < |s| {
      if s[i] != STAR {
        BlockLeavesFront(s[i := SPACE], i + 1, k);
      } else if !(i + 1 < |s| && s[i + 1] == SLASH) {
        BlockLeavesFront(s[i := SPACE], i + 2, k);
      }
    }
  }
}
