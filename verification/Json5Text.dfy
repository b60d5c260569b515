/** The stripper on whole texts: a text is a list of pieces, and stripping it gives the same text with
    the comments blanked and then the trailing commas. */
module Json5Text {
  import opened Basics
  import opened Json5
  import Seqs

  /** A byte outside strings and comments, a string, a comment up to the end of its line, or a comment
      between its marks, in which every star has a space behind it. */
  datatype Piece = Plain(c: Byte) | Str(body: Bytes) | ToLineEnd(body: Bytes) | Marked(body: Bytes)

  /** Every quote in a string body is escaped, and so is every backslash. */
  predicate StringBody(body: Bytes)
    decreases |body|
  {
    || body == []
    || (body[0] == BACKSLASH && |body| >= 2 && StringBody(body[2..]))
    || (body[0] != BACKSLASH && body[0] != QUOTE && StringBody(body[1..]))
  }

  predicate PieceOk(p: Piece) {
    match p
    case Plain(c) => c != QUOTE && c != SLASH
    case Str(body) => StringBody(body)
    case ToLineEnd(body) => forall k :: 0 <= k < |body| ==> !IsNL(body[k])
    case Marked(body) => forall k :: 0 <= k < |body| && body[k] == STAR ==> k + 1 < |body| && body[k + 1] == SPACE
  }

  /** Pieces of a text: a comment up to the end of its line is last or has the line's end behind it. */
  predicate Text(ps: seq<Piece>)
    decreases |ps|
  {
    ps == [] || (PieceOk(ps[0]) && (ps[0].ToLineEnd? ==> LineEnds(ps[1..])) && Text(ps[1..]))
  }

  predicate LineEnds(ps: seq<Piece>) { ps == [] || (ps[0].Plain? && IsNL(ps[0].c)) }

  function Size(p: Piece): (n: nat)
    ensures n > 0
  {
    match p
    case Plain(_) => 1
    case Str(body) => |body| + 2
    case ToLineEnd(body) => |body| + 2
    case Marked(body) => |body| + 4
  }

  function Written(p: Piece): (b: Bytes)
    ensures |b| == Size(p)
  {
    match p
    case Plain(c) => [c]
    case Str(body) => [QUOTE] + body + [QUOTE]
    case ToLineEnd(body) => [SLASH, SLASH] + body
    case Marked(body) => [SLASH, STAR] + body + [STAR, SLASH]
  }

  function Spaces(n: nat): (b: Bytes)
    ensures |b| == n && forall k :: 0 <= k < n ==> b[k] == SPACE
  {
    seq(n, _ => SPACE)
  }

  /** A piece without comment: the comments are as many spaces. */
  function Bare(p: Piece): (b: Bytes)
    ensures |b| == Size(p)
  {
    if p.ToLineEnd? || p.Marked? then Spaces(Size(p)) else Written(p)
  }

  function Render(ps: seq<Piece>): Bytes { if ps == [] then [] else Written(ps[0]) + Render(ps[1..]) }

  function Erase(ps: seq<Piece>): (b: Bytes)
    ensures |b| == |Render(ps)|
  {
    if ps == [] then [] else Bare(ps[0]) + Erase(ps[1..])
  }

  // ---------- where the stripper is ----------

  predicate ByteAt(s: Bytes, b: Bytes, i: nat, p: Piece, k: nat)
    requires i <= k < i + Size(p) <= |s| && |b| == |s|
  {
    b[k] == Written(p)[k - i] && s[k] == Bare(p)[k - i]
  }

  /** The piece `p` is written at `i` in the buffer `b`, and its bare form in `s`, outside all strings. */
  predicate PieceAt(s: Bytes, b: Bytes, i: nat, p: Piece) {
    && |b| == |s| && PieceOk(p) && i + Size(p) <= |s| && ModeAt(s, i).Outside?
    && forall k :: i <= k < i + Size(p) ==> ByteAt(s, b, i, p, k)
  }

  lemma PieceBytes(s: Bytes, b: Bytes, i: nat, p: Piece)
    requires PieceAt(s, b, i, p)
    ensures forall k :: i <= k < i + Size(p) ==> b[k] == Written(p)[k - i] && s[k] == Bare(p)[k - i]
  {
    forall k | i <= k < i + Size(p) ensures b[k] == Written(p)[k - i] && s[k] == Bare(p)[k - i] {
      assert ByteAt(s, b, i, p, k);
    }
  }

  /** From `i` on the buffer `b` is the text `ps`, of which `s` is the bare form. */
  predicate Stands(s: Bytes, b: Bytes, i: nat, ps: seq<Piece>)
    decreases |ps|
  {
    && |b| == |s|
    && if ps == [] then i >= |s|
       else
         && PieceAt(s, b, i, ps[0]) && (ps[0].ToLineEnd? ==> LineEnds(ps[1..]))
         && Stands(s, b, i + Size(ps[0]), ps[1..])
  }

  lemma {:induction false} TailStands(s: Bytes, b: Bytes, t: Bytes, i: nat, ps: seq<Piece>)
    requires Stands(s, b, i, ps) && |t| == |b| && forall k :: i <= k < |b| ==> t[k] == b[k]
    ensures Stands(s, t, i, ps)
    decreases |ps|
  {
    if ps != [] {
      PieceBytes(s, b, i, ps[0]);
      assert PieceAt(s, t, i, ps[0]);
      TailStands(s, b, t, i + Size(ps[0]), ps[1..]);
    }
  }

  predicate CleanAt(s: Bytes, b: Bytes, k: nat)
    requires k < |s| == |b|
  {
    b[k] == if Trailing(s, k) then SPACE else s[k]
  }

  /** Before `i` the buffer is cleaned, except perhaps at `x`. */
  predicate Done(s: Bytes, b: Bytes, i: nat, x: nat) {
    |b| == |s| && forall k :: 0 <= k < i && k < |s| && k != x ==> CleanAt(s, b, k)
  }

  predicate Same(b: Bytes, t: Bytes, i: nat, e: nat) {
    |t| == |b| && forall k :: 0 <= k < |b| && !(i <= k < e) ==> t[k] == b[k]
  }

  lemma DoneGrows(s: Bytes, b: Bytes, i: nat, e: nat, t: Bytes, x: nat)
    requires Done(s, b, i, x) && i <= e && Same(b, t, i, e)
    requires forall k :: i <= k < e && k < |s| && k != x ==> CleanAt(s, t, k)
    ensures Done(s, t, e, x)
  {
    forall k | 0 <= k < e && k < |s| && k != x ensures CleanAt(s, t, k) {
      if k < i {
        assert CleanAt(s, b, k);
      }
    }
  }

  /** One piece is passed in a buffer `t` that differs from `b` in that piece only. */
  lemma PiecePassed(s: Bytes, b: Bytes, i: nat, ps: seq<Piece>, t: Bytes)
    requires Stands(s, b, i, ps) && ps != [] && Same(b, t, i, i + Size(ps[0]))
    ensures Stands(s, t, i + Size(ps[0]), ps[1..])
  {
    TailStands(s, b, t, i + Size(ps[0]), ps[1..]);
  }

  // ---------- comments ----------

  /** Blanks end no string and are no commas. */
  lemma {:induction false} BlanksStayOutside(s: Bytes, i: nat, e: nat)
    requires i <= e <= |s| && (i < |s| ==> ModeAt(s, i).Outside?) && forall k :: i <= k < e ==> s[k] == SPACE
    ensures e < |s| ==> ModeAt(s, e).Outside?
    ensures forall k {:trigger Trailing(s, k)} :: i <= k < e ==> !Trailing(s, k)
    decreases e - i
  {
    if i < e {
      BlanksStayOutside(s, i, e - 1);
    }
  }

  lemma CommentBytes(p: Piece)
    requires PieceOk(p) && (p.ToLineEnd? || p.Marked?)
    ensures var w, n := Written(p), Size(p);
            && n >= 2 && w[0] == SLASH && (forall k :: 0 <= k < n ==> Bare(p)[k] == SPACE)
            && (p.ToLineEnd? ==> w[1] == SLASH && forall k :: 0 <= k < n ==> !IsNL(w[k]))
            && (p.Marked? ==> n >= 4 && w[1] == STAR && w[n - 2] == STAR && w[n - 1] == SLASH
                              && forall k :: 1 < k < n - 2 && w[k] == STAR ==> w[k + 1] == SPACE)
  {
  }

  lemma CommentIsBlank(s: Bytes, b: Bytes, i: nat, p: Piece)
    requires PieceAt(s, b, i, p) && (p.ToLineEnd? || p.Marked?)
    ensures forall k :: i <= k < i + Size(p) ==> s[k] == SPACE
  {
    CommentBytes(p);
    forall k | i <= k < i + Size(p) ensures s[k] == SPACE {
      assert ByteAt(s, b, i, p, k);
    }
  }

  /** Whatever blanks a comment and nothing else passes it. */
  lemma ErasedIsPassed(s: Bytes, b: Bytes, i: nat, ps: seq<Piece>, t: Bytes, x: nat)
    requires Stands(s, b, i, ps) && Done(s, b, i, x) && ps != [] && (ps[0].ToLineEnd? || ps[0].Marked?)
    requires Erased(b, t, i, i + Size(ps[0]))
    ensures var e := i + Size(ps[0]);
            e <= |s| && Stands(s, t, e, ps[1..]) && Done(s, t, e, x) && forall k :: i <= k < e ==> IsWS(s[k])
  {
    var e := i + Size(ps[0]);
    CommentIsBlank(s, b, i, ps[0]);
    BlanksStayOutside(s, i, e);
    assert Same(b, t, i, e);
    PiecePassed(s, b, i, ps, t);
    DoneGrows(s, b, i, e, t, x);
  }

  lemma LineBytes(s: Bytes, b: Bytes, i: nat, p: Piece)
    requires PieceAt(s, b, i, p) && p.ToLineEnd?
    ensures var e := i + Size(p);
            i + 1 < e && b[i] == SLASH && b[i + 1] == SLASH && forall k :: i + 1 <= k < e ==> !IsNL(b[k])
  {
    CommentBytes(p);
    assert ByteAt(s, b, i, p, i) && ByteAt(s, b, i, p, i + 1);
    forall k | i + 1 <= k < i + Size(p) ensures !IsNL(b[k]) {
      assert ByteAt(s, b, i, p, k);
    }
  }

  lemma LineIsErased(s: Bytes, b: Bytes, i: nat, ps: seq<Piece>)
    requires Stands(s, b, i, ps) && ps != [] && ps[0].ToLineEnd?
    ensures var e := i + Size(ps[0]);
            e <= |s| && b[i] == SLASH && Comment(b, i + 1).at == e && Erased(b, Comment(b, i + 1).bytes, i, e)
  {
    var e := i + Size(ps[0]);
    LineBytes(s, b, i, ps[0]);
    if e < |s| {
      PlainStands(s, b, e, ps[1..]);
    }
    LineCommentIsErased(b, i + 1, e);
  }

  lemma MarkedBytes(s: Bytes, b: Bytes, i: nat, p: Piece)
    requires PieceAt(s, b, i, p) && p.Marked?
    ensures var e := i + Size(p);
            && i + 4 <= e && b[i] == SLASH && b[i + 1] == STAR && b[e - 2] == STAR && b[e - 1] == SLASH
            && Spaced(b, i + 2, e - 2)
  {
    var e := i + Size(p);
    CommentBytes(p);
    assert ByteAt(s, b, i, p, i) && ByteAt(s, b, i, p, i + 1) && ByteAt(s, b, i, p, e - 2) && ByteAt(s, b, i, p, e - 1);
    forall k | i + 2 <= k < e - 2 && b[k] == STAR ensures b[k + 1] == SPACE {
      assert ByteAt(s, b, i, p, k) && ByteAt(s, b, i, p, k + 1);
    }
  }

  lemma MarkedIsErased(s: Bytes, b: Bytes, i: nat, p: Piece)
    requires PieceAt(s, b, i, p) && p.Marked?
    ensures var e := i + Size(p);
            && i + 1 < e <= |s| && b[i] == SLASH && Comment(b, i + 1).at == e - 1
            && Erased(b, Comment(b, i + 1).bytes, i, e)
  {
    MarkedBytes(s, b, i, p);
    BlockCommentIsErasedExactlyWhen(b, i + 1, i + Size(p) - 2);
  }

  // ---------- strings and single bytes ----------

  lemma {:induction false} StringEndsAt(b: Bytes, i: nat, body: Bytes)
    requires StringBody(body) && i + |body| < |b| && b[i + |body|] == QUOTE
    requires forall k :: 0 <= k < |body| ==> b[i + k] == body[k]
    ensures StringEnd(b, i) == i + |body| + 1
    decreases |body|
  {
    if body != [] {
      if body[0] == BACKSLASH {
        assert forall k :: 0 <= k < |body[2..]| ==> body[2..][k] == body[k + 2];
        StringEndsAt(b, i + 2, body[2..]);
      } else {
        StringEndsAt(b, i + 1, body[1..]);
      }
    }
  }

  lemma StringFits(b: Bytes, i: nat, body: Bytes)
    requires StringBody(body) && i + |body| + 2 <= |b|
    requires forall k :: i <= k < i + |body| + 2 ==> b[k] == Written(Str(body))[k - i]
    ensures b[i] == QUOTE && StringEnd(b, i + 1) == i + |body| + 2
  {
    var w := Written(Str(body));
    assert b[i] == w[0] && b[i + 1 + |body|] == w[1 + |body|];
    forall k | 0 <= k < |body| ensures b[i + 1 + k] == body[k] {
      assert b[i + 1 + k] == w[1 + k];
    }
    StringEndsAt(b, i + 1, body);
  }

  lemma StringStands(s: Bytes, b: Bytes, i: nat, p: Piece)
    requires PieceAt(s, b, i, p) && p.Str?
    ensures var e := i + Size(p);
            && i < e <= |s| && b[i] == QUOTE && s[i] == QUOTE && StringEnd(b, i + 1) == e && StringEnd(s, i + 1) == e
            && forall k :: i <= k < e ==> b[k] == s[k]
  {
    PieceBytes(s, b, i, p);
    StringFits(b, i, p.body);
    StringFits(s, i, p.body);
  }

  lemma StringPassed(s: Bytes, b: Bytes, i: nat, ps: seq<Piece>, x: nat)
    requires Stands(s, b, i, ps) && Done(s, b, i, x) && ps != [] && ps[0].Str?
    ensures var e := i + Size(ps[0]);
            && i < e <= |s| && b[i] == QUOTE && StringEnd(b, i + 1) == e && Stands(s, b, e, ps[1..]) && Done(s, b, e, x)
  {
    var e := i + Size(ps[0]);
    StringStands(s, b, i, ps[0]);
    StringIsSkipped(s, s, i + 1);
    forall k | i <= k < e ensures CleanAt(s, b, k) {
      assert b[k] == s[k] && (k > i ==> !ModeAt(s, k).Outside?);
    }
    DoneGrows(s, b, i, e, b, x);
  }

  lemma PlainStands(s: Bytes, b: Bytes, i: nat, ps: seq<Piece>)
    requires Stands(s, b, i, ps) && ps != [] && ps[0].Plain?
    ensures i < |s| && b[i] == s[i] == ps[0].c && s[i] != QUOTE && s[i] != SLASH && Stands(s, b, i + 1, ps[1..])
    ensures ModeAt(s, i).Outside?
  {
    assert ByteAt(s, b, i, ps[0], i);
  }

  lemma PlainPassed(s: Bytes, b: Bytes, i: nat, ps: seq<Piece>, x: nat)
    requires Stands(s, b, i, ps) && Done(s, b, i, x) && ps != [] && ps[0].Plain?
    ensures i < |s| && Stands(s, b, i + 1, ps[1..]) && b[i] == s[i] == ps[0].c && s[i] != QUOTE && s[i] != SLASH
    ensures ps[0].c != COMMA ==> Done(s, b, i + 1, x)
    ensures x == |s| ==> Done(s, b, i + 1, i)
  {
    PlainStands(s, b, i, ps);
    if ps[0].c != COMMA {
      DoneGrows(s, b, i, i + 1, b, x);
    }
    if x == |s| {
      forall k | 0 <= k < i ensures CleanAt(s, b, k) {
      }
    }
  }

  // ---------- commas ----------

  /** The comma at `j` is all that is not clean, and nothing but white space came after it. */
  predicate Pondered(s: Bytes, b: Bytes, j: nat, i: nat) {
    && j <= i <= |s| && j < |s| && Done(s, b, i + 1, j) && s[j] == COMMA && b[j] == COMMA && ModeAt(s, j).Outside?
    && OnlyWS(s, j, if i < |s| then i + 1 else |s|)
  }

  lemma CommaJudged(s: Bytes, b: Bytes, j: nat, i: nat)
    requires Pondered(s, b, j, i) && (i + 1 < |s| ==> b[i + 1] == s[i + 1] && !IsWS(s[i + 1]) && s[i + 1] != SLASH)
    ensures var c := AfterComma(b, j, i); c.at == i + 1 && Done(s, c.bytes, i + 1, |s|) && Same(b, c.bytes, j, j + 1)
  {
    var n, t := i + 1, AfterComma(b, j, i).bytes;
    NextByteDecides(s, j, if n < |s| then n else |s|);
    assert CleanAt(s, t, j);
    forall k | 0 <= k < n && k < |s| ensures CleanAt(s, t, k) {
      if k != j {
        assert CleanAt(s, b, k);
      }
    }
  }

  /** The look-ahead ends here: the comma at `j` is judged. */
  lemma CommaSettled(s: Bytes, b: Bytes, j: nat, i: nat, ps: seq<Piece>)
    requires Pondered(s, b, j, i) && Stands(s, b, i + 1, ps)
    requires i + 1 < |s| ==> b[i + 1] == s[i + 1] && !IsWS(s[i + 1]) && s[i + 1] != SLASH
    ensures var c := AfterComma(b, j, i); c.at == i + 1 && Stands(s, c.bytes, c.at, ps) && Done(s, c.bytes, c.at, |s|)
  {
    CommaJudged(s, b, j, i);
    var t := AfterComma(b, j, i).bytes;
    TailStands(s, b, t, i + 1, ps);
  }

  /** The look-ahead stops at these pieces. */
  predicate Decides(ps: seq<Piece>) { ps == [] || ps[0].Str? || (ps[0].Plain? && !IsWS(ps[0].c)) }

  lemma SettledHere(s: Bytes, b: Bytes, j: nat, i: nat, ps: seq<Piece>)
    requires Pondered(s, b, j, i) && Stands(s, b, i + 1, ps) && Decides(ps)
    ensures var c := AfterComma(b, j, i); Stands(s, c.bytes, c.at, ps) && Done(s, c.bytes, c.at, |s|)
  {
    if ps == [] {
    } else if ps[0].Plain? {
      PlainStands(s, b, i + 1, ps);
    } else {
      StringStands(s, b, i + 1, ps[0]);
    }
    CommaSettled(s, b, j, i, ps);
  }

  /** A byte of white space is looked past. */
  lemma SpaceLookedPast(s: Bytes, b: Bytes, j: nat, i: nat, ps: seq<Piece>)
    requires Pondered(s, b, j, i) && Stands(s, b, i + 1, ps) && ps != [] && ps[0].Plain? && IsWS(ps[0].c)
    ensures Stands(s, b, i + 2, ps[1..]) && Pondered(s, b, j, i + 1) && AfterComma(b, j, i) == AfterComma(b, j, i + 1)
  {
    PlainPassed(s, b, i + 1, ps, j);
  }

  lemma AfterSlash(b: Bytes, j: nat, i: nat, t: Bytes, at: nat)
    requires j < |b| && i + 1 < |b| && b[i + 1] == SLASH && Comment(b, i + 2) == Cursor(t, at)
    ensures AfterComma(b, j, i) == AfterComma(t, j, at)
  {
  }

  lemma StillPondered(s: Bytes, b: Bytes, j: nat, i: nat, e: nat, t: Bytes)
    requires Pondered(s, b, j, i) && i < e <= |s| && Same(b, t, i + 1, e) && Done(s, t, e, j)
    requires forall k :: i < k < e ==> IsWS(s[k])
    ensures Pondered(s, t, j, e - 1)
  {
  }

  /** So is a comment between marks, up to its last byte at `e`. */
  lemma MarkedLookedPast(s: Bytes, b: Bytes, j: nat, i: nat, ps: seq<Piece>, t: Bytes, e: nat)
    requires Pondered(s, b, j, i) && Stands(s, b, i + 1, ps) && ps != [] && ps[0].Marked?
    requires e == i + Size(ps[0]) && Erased(b, t, i + 1, e + 1)
    ensures Stands(s, t, e + 1, ps[1..]) && Pondered(s, t, j, e)
  {
    ErasedIsPassed(s, b, i + 1, ps, t, j);
    StillPondered(s, b, j, i, e + 1, t);
  }

  lemma MarkedAhead(s: Bytes, b: Bytes, j: nat, i: nat, ps: seq<Piece>) returns (t: Bytes, e: nat)
    requires Pondered(s, b, j, i) && Stands(s, b, i + 1, ps) && ps != [] && ps[0].Marked?
    ensures Stands(s, t, e + 1, ps[1..]) && Pondered(s, t, j, e) && AfterComma(b, j, i) == AfterComma(t, j, e)
  {
    t, e := Comment(b, i + 2).bytes, i + Size(ps[0]);
    MarkedIsErased(s, b, i + 1, ps[0]);
    AfterSlash(b, j, i, t, e);
    MarkedLookedPast(s, b, j, i, ps, t, e);
  }

  lemma LineErasedAhead(s: Bytes, b: Bytes, j: nat, i: nat, ps: seq<Piece>) returns (t: Bytes, e: nat)
    requires Pondered(s, b, j, i) && Stands(s, b, i + 1, ps) && ps != [] && ps[0].ToLineEnd?
    ensures e > 0 && Stands(s, t, e, ps[1..]) && Pondered(s, t, j, e - 1) && AfterComma(b, j, i) == AfterComma(t, j, e)
    ensures e <= |s| && LineEnds(ps[1..])
  {
    t, e := Comment(b, i + 2).bytes, i + 1 + Size(ps[0]);
    LineIsErased(s, b, i + 1, ps);
    ErasedIsPassed(s, b, i + 1, ps, t, j);
    AfterSlash(b, j, i, t, e);
    StillPondered(s, b, j, i, e, t);
  }

  lemma EndLookedPast(s: Bytes, b: Bytes, j: nat, i: nat)
    requires Pondered(s, b, j, i) && i + 1 == |s|
    ensures Pondered(s, b, j, i + 1) && Stands(s, b, i + 2, [])
  {
    forall k | 0 <= k < i + 2 && k < |s| && k != j ensures CleanAt(s, b, k) {
    }
  }

  /** A comment up to the end of its line is looked past together with the line's end. */
  lemma LineLookedPast(s: Bytes, b: Bytes, j: nat, i: nat, ps: seq<Piece>) returns (t: Bytes, e: nat, rest: seq<Piece>)
    requires Pondered(s, b, j, i) && Stands(s, b, i + 1, ps) && ps != [] && ps[0].ToLineEnd?
    ensures Stands(s, t, e + 1, rest) && Pondered(s, t, j, e) && AfterComma(b, j, i) == AfterComma(t, j, e)
    ensures |rest| < |ps|
  {
    t, e := LineErasedAhead(s, b, j, i, ps);
    if ps[1..] == [] {
      EndLookedPast(s, t, j, e - 1);
      rest := [];
    } else {
      PlainPassed(s, t, e, ps[1..], j);
      rest := ps[1..][1..];
      StillPondered(s, t, j, e - 1, e + 1, t);
    }
  }

  lemma LookFurther(s: Bytes, b: Bytes, j: nat, i: nat, ps: seq<Piece>) returns (t: Bytes, e: nat, rest: seq<Piece>)
    requires Pondered(s, b, j, i) && Stands(s, b, i + 1, ps) && !Decides(ps)
    ensures Stands(s, t, e + 1, rest) && Pondered(s, t, j, e) && AfterComma(b, j, i) == AfterComma(t, j, e)
    ensures |rest| < |ps|
  {
    if ps[0].Plain? {
      SpaceLookedPast(s, b, j, i, ps);
      t, e, rest := b, i + 1, ps[1..];
    } else if ps[0].Marked? {
      t, e := MarkedAhead(s, b, j, i, ps);
      rest := ps[1..];
    } else {
      t, e, rest := LineLookedPast(s, b, j, i, ps);
    }
  }

  /** The look-ahead passes white space and comments until it can judge the comma at `j`. */
  lemma {:induction false} CommaIsSettled(s: Bytes, b: Bytes, j: nat, i: nat, ps: seq<Piece>) returns (rest: seq<Piece>)
    requires Pondered(s, b, j, i) && Stands(s, b, i + 1, ps)
    ensures var c := AfterComma(b, j, i); Stands(s, c.bytes, c.at, rest) && Done(s, c.bytes, c.at, |s|)
    decreases |ps|
  {
    if Decides(ps) {
      SettledHere(s, b, j, i, ps);
      rest := ps;
    } else {
      var t, e;
      t, e, rest := LookFurther(s, b, j, i, ps);
      rest := CommaIsSettled(s, t, j, e, rest);
    }
  }

  // ---------- main result ----------

  lemma CommentFound(s: Bytes, b: Bytes, i: nat, ps: seq<Piece>)
    requires Stands(s, b, i, ps) && ps != [] && (ps[0].ToLineEnd? || ps[0].Marked?)
    ensures var e := i + Size(ps[0]);
            && i + 1 < e <= |s| && b[i] == SLASH && Comment(b, i + 1).at in {e - 1, e}
            && Erased(b, Comment(b, i + 1).bytes, i, e)
  {
    if ps[0].ToLineEnd? { LineIsErased(s, b, i, ps); } else { MarkedIsErased(s, b, i, ps[0]); }
  }

  lemma CommentStripped(s: Bytes, b: Bytes, i: nat, ps: seq<Piece>) returns (t: Bytes, e: nat)
    requires Stands(s, b, i, ps) && Done(s, b, i, |s|) && ps != [] && (ps[0].ToLineEnd? || ps[0].Marked?)
    ensures i < e && Stands(s, t, e, ps[1..]) && Done(s, t, e, |s|) && Strip(b, i) == Strip(t, e)
  {
    CommentFound(s, b, i, ps);
    t, e := Comment(b, i + 1).bytes, i + Size(ps[0]);
    StripSlash(b, i, t, e, Comment(b, i + 1).at);
    ErasedIsPassed(s, b, i, ps, t, |s|);
  }

  lemma StripSlash(b: Bytes, i: nat, t: Bytes, e: nat, at: nat)
    requires i < e <= |b| && b[i] == SLASH && Comment(b, i + 1) == Cursor(t, at) && (at == e || at == e - 1)
    requires t[e - 1] == SPACE
    ensures Strip(b, i) == Strip(t, e)
  {
    if at == e - 1 {
      assert Strip(t, at) == Strip(t, e);
    }
  }

  lemma CommaStripped(s: Bytes, b: Bytes, i: nat, ps: seq<Piece>) returns (t: Bytes, e: nat, rest: seq<Piece>)
    requires Stands(s, b, i, ps) && Done(s, b, i, |s|) && ps != [] && ps[0] == Plain(COMMA)
    ensures i < e && Stands(s, t, e, rest) && Done(s, t, e, |s|) && Strip(b, i) == Strip(t, e)
  {
    PlainPassed(s, b, i, ps, |s|);
    PlainStands(s, b, i, ps);
    rest := CommaIsSettled(s, b, i, i, ps[1..]);
    t, e := AfterComma(b, i, i).bytes, AfterComma(b, i, i).at;
  }

  /** One piece is stripped, or a comma with what the look-ahead passed. */
  lemma PieceStripped(s: Bytes, b: Bytes, i: nat, ps: seq<Piece>) returns (t: Bytes, e: nat, rest: seq<Piece>)
    requires Stands(s, b, i, ps) && Done(s, b, i, |s|) && ps != []
    ensures i < e && Stands(s, t, e, rest) && Done(s, t, e, |s|) && Strip(b, i) == Strip(t, e)
  {
    if ps[0] == Plain(COMMA) {
      t, e, rest := CommaStripped(s, b, i, ps);
    } else if ps[0].Plain? {
      PlainPassed(s, b, i, ps, |s|);
      t, e, rest := b, i + 1, ps[1..];
    } else if ps[0].Str? {
      StringPassed(s, b, i, ps, |s|);
      t, e, rest := b, i + Size(ps[0]), ps[1..];
    } else {
      t, e := CommentStripped(s, b, i, ps);
      rest := ps[1..];
    }
  }

  lemma {:induction false} StripsPieces(s: Bytes, b: Bytes, i: nat, ps: seq<Piece>)
    requires Stands(s, b, i, ps) && Done(s, b, i, |s|)
    ensures Done(s, Strip(b, i), |s|, |s|)
    decreases |s| + 3 - i
  {
    if i < |s| && ps != [] {
      var t, e, rest := PieceStripped(s, b, i, ps);
      StripsPieces(s, t, e, rest);
    } else {
      DoneToEnd(s, b, i);
    }
  }

  lemma DoneToEnd(s: Bytes, b: Bytes, i: nat)
    requires Done(s, b, i, |s|) && i >= |s|
    ensures Done(s, b, |s|, |s|)
  {
    forall k | 0 <= k < |s| ensures CleanAt(s, b, k) {
    }
  }

  /** The mode after a piece. */
  lemma OutsideAfter(s: Bytes, b: Bytes, i: nat, p: Piece)
    requires PieceAt(s, b, i, p) && i + Size(p) < |s|
    ensures ModeAt(s, i + Size(p)).Outside?
  {
    var e := i + Size(p);
    match p {
      case Plain(c) => assert ByteAt(s, b, i, p, i);
      case Str(_) =>
        StringStands(s, b, i, p);
        StringIsSkipped(s, s, i + 1);
      case _ =>
        CommentIsBlank(s, b, i, p);
        BlanksStayOutside(s, i, e);
    }
  }

  /** From `i` on, `b` spells the text `ps` and `s` its bare form. */
  predicate Spelled(s: Bytes, b: Bytes, i: nat, ps: seq<Piece>)
    decreases |ps|
  {
    && |b| == |s|
    && if ps == [] then i == |s|
       else
         && i + Size(ps[0]) <= |s| && (forall k :: i <= k < i + Size(ps[0]) ==> ByteAt(s, b, i, ps[0], k))
         && Spelled(s, b, i + Size(ps[0]), ps[1..])
  }

  lemma PieceSpelled(s: Bytes, b: Bytes, p: Piece, s0: Bytes, b0: Bytes, s1: Bytes, b1: Bytes)
    requires |s0| == |b0| && |s1| == |b1| && s == s0 + Bare(p) + s1 && b == b0 + Written(p) + b1
    ensures |b| == |s| && |s0| + Size(p) <= |s|
    ensures forall k :: |s0| <= k < |s0| + Size(p) ==> ByteAt(s, b, |s0|, p, k)
  {
    Seqs.Middle(s0, Bare(p), s1);
    Seqs.Middle(b0, Written(p), b1);
    forall k | |s0| <= k < |s0| + Size(p) ensures ByteAt(s, b, |s0|, p, k) {
    }
  }

  /** `s0` and `b0` are what comes before the text. */
  lemma {:induction false} TextSpelled(s: Bytes, b: Bytes, s0: Bytes, b0: Bytes, ps: seq<Piece>)
    requires |s0| == |b0| && s == s0 + Erase(ps) && b == b0 + Render(ps)
    ensures Spelled(s, b, |s0|, ps)
    decreases |ps|
  {
    if ps != [] {
      Seqs.Assoc(s0, Bare(ps[0]), Erase(ps[1..]));
      Seqs.Assoc(b0, Written(ps[0]), Render(ps[1..]));
      PieceSpelled(s, b, ps[0], s0, b0, Erase(ps[1..]), Render(ps[1..]));
      TextSpelled(s, b, s0 + Bare(ps[0]), b0 + Written(ps[0]), ps[1..]);
    }
  }

  lemma {:induction false} SpelledStands(s: Bytes, b: Bytes, i: nat, ps: seq<Piece>)
    requires Text(ps) && Spelled(s, b, i, ps) && (i < |s| ==> ModeAt(s, i).Outside?)
    ensures Stands(s, b, i, ps)
    decreases |ps|
  {
    if ps != [] {
      if i + Size(ps[0]) < |s| {
        OutsideAfter(s, b, i, ps[0]);
      }
      SpelledStands(s, b, i + Size(ps[0]), ps[1..]);
    }
  }

  /** Stripping a text leaves its bare form without the trailing commas, every byte in its place. */
  lemma StripRemovesCommentsAndTrailingCommas(ps: seq<Piece>)
    requires Text(ps)
    ensures Cleaned(Erase(ps), Strip(Render(ps), 0))
  {
    var s, b := Erase(ps), Render(ps);
    Seqs.LeftUnit(s);
    Seqs.LeftUnit(b);
    TextSpelled(s, b, [], [], ps);
    SpelledStands(s, b, 0, ps);
    StripsPieces(s, b, 0, ps);
    forall k | 0 <= k < |s| ensures Strip(b, 0)[k] == if Trailing(s, k) then SPACE else s[k] {
      assert CleanAt(s, Strip(b, 0), k);
    }
  }
}
