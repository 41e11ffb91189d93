/** Splitting a string at a delimiter. */
module StringUtils {
  function IndexFrom(s: string, c: char, start: nat): (i: nat)
    requires start <= |s|
    ensures start <= i <= |s|
    decreases |s| - start
  {
    if start == |s| || s[start] == c then start else IndexFrom(s, c, start + 1)
  }

  lemma {:induction false} IndexFound(s: string, c: char, start: nat)
    requires start <= |s|
    ensures var i := IndexFrom(s, c, start);
            (i < |s| ==> s[i] == c) && forall k :: start <= k < i ==> s[k] != c
    decreases |s| - start
  {
    if start < |s| && s[start] != c { IndexFound(s, c, start + 1); }
  }

  /** Everything between two delimiters, or a delimiter and an end, from `start` on. */
  function Pieces(s: string, c: char, start: nat): (r: seq<string>)
    requires start <= |s|
    ensures |r| > 0
    decreases |s| - start
  {
    var i := IndexFrom(s, c, start);
    if i == |s| then [s[start..]] else [s[start..i]] + Pieces(s, c, i + 1)
  }

  function JoinWith(pieces: seq<string>, c: char): string
    requires |pieces| > 0
  {
    if |pieces| == 1 then pieces[0] else pieces[0] + [c] + JoinWith(pieces[1..], c)
  }

  lemma JoinCons(first: string, pieces: seq<string>, c: char)
    requires |pieces| > 0
    ensures JoinWith([first] + pieces, c) == first + [c] + JoinWith(pieces, c)
  {
    assert ([first] + pieces)[1..] == pieces;
  }

  lemma CutAt(s: string, c: char, start: nat, i: nat)
    requires start <= i < |s| && s[i] == c
    ensures s[start..] == s[start..i] + [c] + s[i + 1..]
  {
  }

  /** The pieces joined by the delimiter are the string again ... */
  lemma {:induction false} PiecesJoin(s: string, c: char, start: nat)
    requires start <= |s|
    ensures JoinWith(Pieces(s, c, start), c) == s[start..]
    decreases |s| - start
  {
    var i := IndexFrom(s, c, start);
    IndexFound(s, c, start);
    if i < |s| {
      PiecesJoin(s, c, i + 1);
      CutAt(s, c, start, i);
      JoinCons(s[start..i], Pieces(s, c, i + 1), c);
    }
  }

  lemma SliceFree(s: string, c: char, i: nat, j: nat)
    requires i <= j <= |s| && forall k :: i <= k < j ==> s[k] != c
    ensures c !in s[i..j]
  {
  }

  /** ... and free of it. */
  lemma {:induction false} PiecesFree(s: string, c: char, start: nat)
    requires start <= |s|
    ensures forall p :: p in Pieces(s, c, start) ==> c !in p
    decreases |s| - start
  {
    var i := IndexFrom(s, c, start);
    IndexFound(s, c, start);
    SliceFree(s, c, start, i);
    if i < |s| {
      PiecesFree(s, c, i + 1);
    } else {
      assert s[start..i] == s[start..];
    }
  }

  lemma FirstPiece(s: string, c: char, start: nat, first: string, rest: string)
    requires start <= |s| && c !in first && s[start..] == first + [c] + rest
    ensures start + |first| < |s| && IndexFrom(s, c, start) == start + |first|
    ensures s[start..start + |first|] == first && s[start + |first| + 1..] == rest
  {
    var t := first + [c] + rest;
    assert |t| == |s| - start && forall k :: 0 <= k < |t| ==> s[start + k] == t[k];
    IndexIs(s, c, start, start + |first|);
  }

  /** And no other list of strings is like that. */
  lemma {:induction false} PiecesUnique(s: string, c: char, start: nat, pieces: seq<string>)
    requires start <= |s| && |pieces| > 0 && forall p :: p in pieces ==> c !in p
    requires s[start..] == JoinWith(pieces, c)
    ensures Pieces(s, c, start) == pieces
    decreases |pieces|
  {
    assert pieces[0] in pieces;
    if |pieces| == 1 {
      IndexFound(s, c, start);
      assert forall k :: start <= k < |s| ==> s[k] in s[start..];
    } else {
      FirstPiece(s, c, start, pieces[0], JoinWith(pieces[1..], c));
      PiecesUnique(s, c, start + |pieces[0]| + 1, pieces[1..]);
      assert pieces == [pieces[0]] + pieces[1..];
    }
  }

  lemma {:induction false} IndexIs(s: string, c: char, start: nat, i: nat)
    requires start <= i < |s| && s[i] == c && forall k :: start <= k < i ==> s[k] != c
    ensures IndexFrom(s, c, start) == i
    decreases i - start
  {
    if start < i { IndexIs(s, c, start + 1, i); }
  }

  function NonEmpty(pieces: seq<string>): seq<string> {
    if pieces == [] then [] else (if pieces[0] == "" then [] else [pieces[0]]) + NonEmpty(pieces[1..])
  }

  function Push(views: seq<string>, view: string, skipEmpty: bool): seq<string> {
    if skipEmpty && view == "" then views else views + [view]
  }

  /** The views before `start`, and then those from there on. */
  function Collect(views: seq<string>, s: string, c: char, start: nat, skipEmpty: bool): seq<string>
    requires start <= |s|
    decreases |s| - start
  {
    var i := IndexFrom(s, c, start);
    var next := Push(views, s[start..i], skipEmpty);
    if i == |s| then next else Collect(next, s, c, i + 1, skipEmpty)
  }

  function Kept(pieces: seq<string>, skipEmpty: bool): seq<string> {
    if skipEmpty then NonEmpty(pieces) else pieces
  }

  lemma PushKept(views: seq<string>, view: string, later: seq<string>, skipEmpty: bool)
    ensures Push(views, view, skipEmpty) + Kept(later, skipEmpty) == views + Kept([view] + later, skipEmpty)
  {
    assert ([view] + later)[1..] == later;
    if skipEmpty && view == "" {
      assert [] + NonEmpty(later) == NonEmpty(later);
    } else {
      assert (views + [view]) + Kept(later, skipEmpty) == views + ([view] + Kept(later, skipEmpty));
    }
  }

  function PushAll(views: seq<string>, pieces: seq<string>, skipEmpty: bool): seq<string>
    decreases |pieces|
  {
    if pieces == [] then views else PushAll(Push(views, pieces[0], skipEmpty), pieces[1..], skipEmpty)
  }

  lemma {:induction false} PushAllKept(views: seq<string>, pieces: seq<string>, skipEmpty: bool)
    ensures PushAll(views, pieces, skipEmpty) == views + Kept(pieces, skipEmpty)
    decreases |pieces|
  {
    if pieces == [] {
      assert views + [] == views;
    } else {
      PushAllKept(Push(views, pieces[0], skipEmpty), pieces[1..], skipEmpty);
      PushKept(views, pieces[0], pieces[1..], skipEmpty);
      assert [pieces[0]] + pieces[1..] == pieces;
    }
  }

  lemma PushAllCons(views: seq<string>, piece: string, pieces: seq<string>, skipEmpty: bool)
    ensures PushAll(views, [piece] + pieces, skipEmpty) == PushAll(Push(views, piece, skipEmpty), pieces, skipEmpty)
  {
    assert ([piece] + pieces)[1..] == pieces;
  }

  lemma {:induction false} CollectPushes(views: seq<string>, s: string, c: char, start: nat, skipEmpty: bool)
    requires start <= |s|
    ensures Collect(views, s, c, start, skipEmpty) == PushAll(views, Pieces(s, c, start), skipEmpty)
    decreases |s| - start
  {
    var i := IndexFrom(s, c, start);
    var view := s[start..i];
    if i < |s| {
      CollectPushes(Push(views, view, skipEmpty), s, c, i + 1, skipEmpty);
      PushAllCons(views, view, Pieces(s, c, i + 1), skipEmpty);
    } else {
      assert view == s[start..];
      PushAllCons(views, view, [], skipEmpty);
      assert [view] + [] == [view];
    }
  }

  /** They are the pieces, or those of them that are not empty. */
  lemma CollectsPieces(views: seq<string>, s: string, c: char, start: nat, skipEmpty: bool)
    requires start <= |s|
    ensures Collect(views, s, c, start, skipEmpty) == views + Kept(Pieces(s, c, start), skipEmpty)
  {
    CollectPushes(views, s, c, start, skipEmpty);
    PushAllKept(views, Pieces(s, c, start), skipEmpty);
  }

  function Split(s: string, c: char, skipEmpty: bool): seq<string> {
    if s == "" then [] else Collect([], s, c, 0, skipEmpty)
  }

  lemma SplitUrl()
    ensures Split("/a/**", '/', true) == ["a", "**"] && Split("/a/**", '/', false) == ["", "a", "**"]
  {
    var s, pieces := "/a/**", ["", "a", "**"];
    assert JoinWith(pieces, '/') == s;
    PiecesUnique(s, '/', 0, pieces);
    CollectsPieces([], s, '/', 0, true);
    CollectsPieces([], s, '/', 0, false);
  }

  const NPOS: int := -1

  /** SplitToViews takes a string as delimiter; the router passes one character. */
  method SplitToViews(str: string, delim: char, skipEmpty: bool) returns (views: seq<string>)
    ensures views == Split(str, delim, skipEmpty)
  {
    views := [];
    if str == "" {
      return;
    }
    var start: int := 0;
    while start != NPOS
      invariant NPOS <= start <= |str|
      invariant start == NPOS ==> views == Split(str, delim, skipEmpty)
      invariant start != NPOS ==> Collect(views, str, delim, start, skipEmpty) == Split(str, delim, skipEmpty)
      decreases if start == NPOS then 0 else |str| - start + 1
    {
      var end := IndexFrom(str, delim, start);
      var view := str[start..end];
      start := if end == |str| then NPOS else end + 1;
      if skipEmpty && view == "" {
        continue;
      }
      views := views + [view];
    }
  }
}
