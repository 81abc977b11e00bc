/**
 * Mention stripping in the app-mention handler:
 * `re.sub(r'<@[A-Z0-9]+>', '', text).strip()`.
 *
 * `re.sub` scans the text from left to right; at each position it either
 * matches a marker `<@ID>` (ID one or more upper-case letters or digits) and
 * drops it, or keeps one character and moves on. The scan is modelled as a
 * tokenizer into kept characters and mentions; dropping the mentions is then
 * keeping the characters.
 */
module Mentions {
  import opened Text

  /** A character of `[A-Z0-9]`; lower-case letters are not part of an ID. */
  predicate IsIdChar(c: char) {
    ('A' <= c <= 'Z') || ('0' <= c <= '9')
  }

  /** A user ID as the pattern accepts it: one or more ID characters. */
  predicate IsId(id: string) {
    id != [] && forall j :: 0 <= j < |id| ==> IsIdChar(id[j])
  }

  /** The mention marker for `id`. */
  function Marker(id: string): (m: string)
    ensures |m| == |id| + 3
  {
    "<@" + id + ">"
  }

  /** The pattern matches at the start of `t`. */
  ghost predicate StartsWithMarker(t: string) {
    exists id :: IsId(id) && Marker(id) <= t
  }

  /** The length of the longest prefix of `t` made of ID characters. */
  function IdRun(t: string): (n: nat)
    ensures n <= |t|
    ensures forall j :: 0 <= j < n ==> IsIdChar(t[j])
    ensures n == |t| || !IsIdChar(t[n])
    decreases |t|
  {
    if t != [] && IsIdChar(t[0]) then 1 + IdRun(t[1..]) else 0
  }

  /** A run of ID characters ended by a non-ID character is exactly what `IdRun` measures. */
  lemma IdRunStopsAt(u: string, m: nat)
    requires m < |u| && !IsIdChar(u[m])
    requires forall j :: 0 <= j < m ==> IsIdChar(u[j])
    ensures IdRun(u) == m
  {
  }

  /** A marker at the start of `t` shows up as `<@`, a run of ID characters of its ID's length, then `>`. */
  lemma MarkerShape(t: string, id: string)
    requires IsId(id) && Marker(id) <= t
    ensures 2 + |id| < |t| && t[0] == '<' && t[1] == '@' && t[2 + |id|] == '>'
    ensures IdRun(t[2..]) == |id|
  {
    var m := Marker(id);
    assert t[..|m|] == m;
    assert t[0] == m[0] && t[1] == m[1] && t[2 + |id|] == m[|m| - 1];
    forall j | 0 <= j < |id|
      ensures IsIdChar(t[2..][j])
    {
      assert t[2..][j] == m[2..|m| - 1][j] == id[j];
    }
    IdRunStopsAt(t[2..], |id|);
  }

  /**
   * The length of the marker the pattern matches at the start of `t`, or 0
   * when it matches none.
   */
  function MarkerLength(t: string): (n: nat)
    ensures n <= |t|
    ensures n > 0 ==> 4 <= n && IsId(t[2..n - 1]) && t[..n] == Marker(t[2..n - 1])
  {
    if 2 <= |t| && t[0] == '<' && t[1] == '@' then
      var r := IdRun(t[2..]);
      if 0 < r && 2 + r < |t| && t[2 + r] == '>' then r + 3 else 0
    else 0
  }

  /**
   * The match is unique: because `>` is not an ID character, every marker
   * that is a prefix of `t` has the length `MarkerLength` finds.
   */
  lemma MarkerLengthUnique(t: string, id: string)
    requires IsId(id) && Marker(id) <= t
    ensures MarkerLength(t) == |id| + 3
  {
    MarkerShape(t, id);
  }

  /** `MarkerLength` finds a marker exactly when the pattern matches at the start of `t`. */
  lemma MarkerLengthFinds(t: string)
    ensures MarkerLength(t) > 0 <==> StartsWithMarker(t)
  {
    var n := MarkerLength(t);
    if n > 0 {
      assert Marker(t[2..n - 1]) <= t;
    }
    if StartsWithMarker(t) {
      var id :| IsId(id) && Marker(id) <= t;
      MarkerLengthUnique(t, id);
    }
  }

  /** One step of the scan: a character kept, or a mention matched. */
  datatype Piece = Kept(c: char) | Mention(id: string)

  /** The text a piece covers. */
  function PieceText(p: Piece): string {
    match p
    case Kept(c) => [c]
    case Mention(id) => Marker(id)
  }

  /** The text a sequence of pieces covers. */
  function Render(ps: seq<Piece>): string
    decreases |ps|
  {
    if ps == [] then [] else PieceText(ps[0]) + Render(ps[1..])
  }

  /** The kept characters, in order: the replacement of every mention by nothing. */
  function KeptText(ps: seq<Piece>): string
    decreases |ps|
  {
    if ps == [] then []
    else match ps[0]
      case Kept(c) => [c] + KeptText(ps[1..])
      case Mention(_) => KeptText(ps[1..])
  }

  /**
   * The pieces are what a left-to-right scan produces: every mention has a
   * valid ID, and a character is kept only where the pattern does not match.
   */
  ghost predicate Scanned(ps: seq<Piece>)
    decreases |ps|
  {
    ps == [] ||
    (&& (match ps[0]
         case Kept(_) => !StartsWithMarker(Render(ps))
         case Mention(id) => IsId(id))
     && Scanned(ps[1..]))
  }

  /** Rendering a piece in front renders its text in front. */
  lemma RenderCons(p: Piece, ps: seq<Piece>)
    ensures Render([p] + ps) == PieceText(p) + Render(ps)
  {
    assert ([p] + ps)[1..] == ps;
  }

  /** A piece in front of a scanned sequence keeps it scanned when it fits the scan. */
  lemma ScannedCons(p: Piece, ps: seq<Piece>)
    requires Scanned(ps)
    requires p.Kept? ==> !StartsWithMarker([p.c] + Render(ps))
    requires p.Mention? ==> IsId(p.id)
    ensures Scanned([p] + ps)
  {
    RenderCons(p, ps);
    assert ([p] + ps)[1..] == ps;
  }

  /** The scan of `re.sub`: splits `s` into kept characters and matched mentions. */
  function Tokenize(s: string): (ps: seq<Piece>)
    decreases |s|
  {
    if s == [] then []
    else
      var n := MarkerLength(s);
      if n > 0 then [Mention(s[2..n - 1])] + Tokenize(s[n..])
      else [Kept(s[0])] + Tokenize(s[1..])
  }

  /** The scan covers the whole text and is a left-to-right scan. */
  lemma {:induction false} TokenizeSound(s: string)
    ensures Render(Tokenize(s)) == s
    ensures Scanned(Tokenize(s))
    decreases |s|
  {
    if s != [] {
      var n := MarkerLength(s);
      if n > 0 {
        TokenizeSound(s[n..]);
        MentionStepSound(s);
      } else {
        TokenizeSound(s[1..]);
        KeptStepSound(s);
      }
    }
  }

  /** The step that matches a marker: sound when the rest of the scan is. */
  lemma MentionStepSound(s: string)
    requires MarkerLength(s) > 0
    requires var n := MarkerLength(s); Render(Tokenize(s[n..])) == s[n..] && Scanned(Tokenize(s[n..]))
    ensures Render(Tokenize(s)) == s && Scanned(Tokenize(s))
  {
    var n := MarkerLength(s);
    var p, rest := Mention(s[2..n - 1]), Tokenize(s[n..]);
    MentionStepTokens(s);
    MentionStepRender(s, rest);
    ScannedCons(p, rest);
  }

  /** Where a marker matches, the scan emits it and resumes right after it. */
  lemma MentionStepTokens(s: string)
    requires MarkerLength(s) > 0
    ensures var n := MarkerLength(s); Tokenize(s) == [Mention(s[2..n - 1])] + Tokenize(s[n..])
  {
  }

  /** A matched marker followed by the rendering of the rest renders the text. */
  lemma MentionStepRender(s: string, rest: seq<Piece>)
    requires MarkerLength(s) > 0
    requires Render(rest) == s[MarkerLength(s)..]
    ensures Render([Mention(s[2..MarkerLength(s) - 1])] + rest) == s
  {
    var n := MarkerLength(s);
    RenderCons(Mention(s[2..n - 1]), rest);
    assert s[..n] + s[n..] == s;
  }

  /** The step that keeps a character: sound when the rest of the scan is. */
  lemma KeptStepSound(s: string)
    requires s != [] && MarkerLength(s) == 0
    requires Render(Tokenize(s[1..])) == s[1..] && Scanned(Tokenize(s[1..]))
    ensures Render(Tokenize(s)) == s && Scanned(Tokenize(s))
  {
    var p, rest := Kept(s[0]), Tokenize(s[1..]);
    assert Tokenize(s) == [p] + rest;
    MarkerLengthFinds(s);
    RenderCons(p, rest);
    assert [s[0]] + s[1..] == s;
    ScannedCons(p, rest);
  }

  /**
   * The scan is the only one: any scanned split of a text is the one
   * `Tokenize` computes, so rendering and tokenizing are inverse.
   */
  lemma {:induction false} TokenizeRender(ps: seq<Piece>)
    requires Scanned(ps)
    ensures Tokenize(Render(ps)) == ps
    decreases |ps|
  {
    if ps != [] {
      TokenizeRender(ps[1..]);
      RenderCons(ps[0], ps[1..]);
      assert ps == [ps[0]] + ps[1..];
      match ps[0]
      case Kept(c) => KeptStepUnique(c, ps[1..]);
      case Mention(id) => MentionStepUnique(id, ps[1..]);
    }
  }

  /** A kept character in front of a scanned sequence is read back as such. */
  lemma KeptStepUnique(c: char, ps: seq<Piece>)
    requires !StartsWithMarker([c] + Render(ps))
    requires Tokenize(Render(ps)) == ps
    ensures Tokenize([c] + Render(ps)) == [Kept(c)] + ps
  {
    var s := [c] + Render(ps);
    MarkerLengthFinds(s);
    assert s[1..] == Render(ps);
  }

  /** A mention in front of a scanned sequence is read back as such. */
  lemma MentionStepUnique(id: string, ps: seq<Piece>)
    requires IsId(id)
    requires Tokenize(Render(ps)) == ps
    ensures Tokenize(Marker(id) + Render(ps)) == [Mention(id)] + ps
  {
    var s := Marker(id) + Render(ps);
    assert s[..|id| + 3] == Marker(id);
    MarkerLengthUnique(s, id);
    assert s[2..|id| + 2] == id;
    assert s[|id| + 3..] == Render(ps);
  }

  /**
   * `re.sub(r'<@[A-Z0-9]+>', '', s)`: what a left-to-right scan of `s` keeps
   * once every matched mention is replaced by nothing.
   */
  function RemoveMentions(s: string): (r: string)
    ensures |r| <= |s|
    ensures exists ps :: Scanned(ps) && Render(ps) == s && KeptText(ps) == r
  {
    var ps := Tokenize(s);
    TokenizeSound(s);
    KeptNoLonger(ps);
    KeptText(ps)
  }

  /** Dropping the mentions never lengthens the text. */
  lemma {:induction false} KeptNoLonger(ps: seq<Piece>)
    ensures |KeptText(ps)| <= |Render(ps)|
    decreases |ps|
  {
    if ps != [] {
      KeptNoLonger(ps[1..]);
    }
  }

  /** The message text the mention handler works with: mentions removed, then whitespace trimmed. */
  function StripMentions(text: string): (r: string)
    ensures |r| <= |text|
    ensures r == [] <==> forall i :: 0 <= i < |RemoveMentions(text)| ==> IsSpace(RemoveMentions(text)[i])
  {
    Strip(RemoveMentions(text))
  }

  /** A text in which the pattern matches nowhere comes out unchanged. */
  lemma {:induction false} NoMarkerUnchanged(s: string)
    requires forall i :: 0 <= i <= |s| ==> !StartsWithMarker(s[i..])
    ensures RemoveMentions(s) == s
    decreases |s|
  {
    if s != [] {
      assert s[0..] == s;
      MarkerLengthFinds(s);
      forall i | 0 <= i <= |s[1..]|
        ensures !StartsWithMarker(s[1..][i..])
      {
        assert s[1..][i..] == s[i + 1..];
      }
      NoMarkerUnchanged(s[1..]);
      var ps := Tokenize(s);
      assert ps == [Kept(s[0])] + Tokenize(s[1..]);
      assert ps[1..] == Tokenize(s[1..]);
    }
  }

  /** A text without any `<` holds no marker and comes out unchanged. */
  lemma NoOpenerUnchanged(s: string)
    requires forall i :: 0 <= i < |s| ==> s[i] != '<'
    ensures RemoveMentions(s) == s
  {
    forall i | 0 <= i <= |s|
      ensures !StartsWithMarker(s[i..])
    {
      MarkerLengthFinds(s[i..]);
    }
    NoMarkerUnchanged(s);
  }

  /** A mention at the front is dropped and the scan goes on right after it. */
  lemma LeadingMentionDropped(id: string, s: string)
    requires IsId(id)
    ensures RemoveMentions(Marker(id) + s) == RemoveMentions(s)
  {
    var t := Marker(id) + s;
    assert Marker(id) <= t;
    MarkerLengthUnique(t, id);
    assert t[|id| + 3..] == s;
    var ps := Tokenize(t);
    assert ps[1..] == Tokenize(s);
  }

  /** A character the pattern does not match at is kept, and the scan goes on right after it. */
  lemma LeadingCharKept(c: char, s: string)
    requires MarkerLength([c] + s) == 0
    ensures RemoveMentions([c] + s) == [c] + RemoveMentions(s)
  {
    var t := [c] + s;
    assert t[1..] == s;
    var ps := Tokenize(t);
    assert ps[1..] == Tokenize(s);
  }

  /** The inner marker of the example below is removed and the rest kept. */
  lemma InnerMarkerRemoved()
    ensures RemoveMentions("<@A>B>") == "B>"
  {
    assert RemoveMentions(">") == ">" by {
      assert RemoveMentions("") == "";
      assert MarkerLength(">") == 0;
      LeadingCharKept('>', "");
    }
    assert RemoveMentions("B>") == "B>" by {
      assert MarkerLength("B>") == 0;
      LeadingCharKept('B', ">");
    }
    assert Marker("A") + "B>" == "<@A>B>";
    LeadingMentionDropped("A", "B>");
  }

  /** An opener `<@` not followed by an ID character is kept as text. */
  lemma OpenerKept(t: string)
    requires t == [] || !IsIdChar(t[0])
    ensures RemoveMentions("<@" + t) == "<@" + RemoveMentions(t)
  {
    var u := ['@'] + t;
    var v := ['<'] + u;
    assert RemoveMentions(u) == ['@'] + RemoveMentions(t) by {
      assert MarkerLength(u) == 0;
      LeadingCharKept('@', t);
    }
    assert RemoveMentions(v) == ['<'] + RemoveMentions(u) by {
      assert v[2..] == t;
      assert MarkerLength(v) == 0;
      LeadingCharKept('<', u);
    }
    assert "<@" + t == v;
    assert "<@" + RemoveMentions(t) == ['<'] + (['@'] + RemoveMentions(t));
  }

  /** A lone marker is removed completely. */
  lemma LoneMarkerRemoved()
    ensures RemoveMentions("<@B>") == ""
  {
    assert RemoveMentions("") == "";
    LeadingMentionDropped("B", "");
    assert Marker("B") + "" == "<@B>";
  }

  /**
   * Removal is one pass and is not idempotent: a marker can be formed by the
   * characters around a removed one, and it survives the pass.
   */
  lemma NotIdempotent()
    ensures RemoveMentions("<@<@A>B>") == "<@B>"
    ensures RemoveMentions(RemoveMentions("<@<@A>B>")) == ""
  {
    assert "<@" + "<@A>B>" == "<@<@A>B>";
    assert "<@" + "B>" == "<@B>";
    InnerMarkerRemoved();
    OpenerKept("<@A>B>");
    LoneMarkerRemoved();
  }
}
