/** The spintax expander of the replies view (`processSpintax`,
    autosocial-ai/components/Replies.tsx:63-68).

    `text.replace(/{([^{}]+)}/g, pick)` scans the template once, left to right.
    At each position a group matches when it is `{`, one or more characters that
    are not braces, then `}`; the match is replaced by one of its `|`-separated
    alternatives and the scan resumes after it; otherwise the character is kept
    and the scan moves one position on. `Math.floor(Math.random() * n)` is
    replaced by an index that the caller supplies for each matched group. */
module Spintax {
  import opened Types
  import Seqs

  predicate IsBrace(c: char) { c == '{' || c == '}' }

  /** Reference definition: s starts with a group whose interior has length n. */
  ghost predicate GroupAt(s: string, n: nat) {
    && 0 < n && n + 2 <= |s|
    && s[0] == '{' && s[n + 1] == '}'
    && forall i :: 1 <= i <= n ==> !IsBrace(s[i])
  }

  /** Length of the longest brace-free prefix of s. */
  function FreeRun(s: string): (n: nat)
    ensures n <= |s|
  {
    if s == [] || IsBrace(s[0]) then 0 else 1 + FreeRun(s[1..])
  }

  /** The run stops at the first brace. */
  lemma {:induction false} FreeRunStops(s: string)
    ensures forall i :: 0 <= i < FreeRun(s) ==> !IsBrace(s[i])
    ensures FreeRun(s) < |s| ==> IsBrace(s[FreeRun(s)])
  {
    if s != [] && !IsBrace(s[0]) {
      FreeRunStops(s[1..]);
      assert forall i :: 1 <= i < |s| ==> s[1..][i - 1] == s[i];
    }
  }

  /** The interior length of the group the regular expression matches at the
      start of s, if it matches there. */
  function GroupLen(s: string): Option<nat> {
    if s == [] || s[0] != '{' then None
    else
      var n := FreeRun(s[1..]);
      if 0 < n && n + 2 <= |s| && s[n + 1] == '}' then Some(n) else None
  }

  /** A group `GroupLen` reports does start s. */
  lemma GroupLenSound(s: string)
    ensures GroupLen(s).Some? ==> GroupAt(s, GroupLen(s).value)
  {
    if s != [] && s[0] == '{' {
      var n := FreeRun(s[1..]);
      FreeRunStops(s[1..]);
      assert forall i :: 1 <= i <= n ==> s[i] == s[1..][i - 1];
    }
  }

  /** A group that starts s is the one `GroupLen` reports. */
  lemma GroupLenComplete(s: string, n: nat)
    requires GroupAt(s, n)
    ensures GroupLen(s) == Some(n)
  {
    FreeRunStops(s[1..]);
    assert forall i :: 1 <= i <= n ==> s[i] == s[1..][i - 1];
  }

  /** A piece of a tokenised template: a kept character or a matched group. */
  datatype Piece = Literal(c: char) | Group(body: string)

  function RenderPiece(p: Piece): string {
    match p
    case Literal(c) => [c]
    case Group(b) => "{" + b + "}"
  }

  /** Writes the pieces back as template text. */
  function Render(ps: seq<Piece>): string {
    if ps == [] then [] else RenderPiece(ps[0]) + Render(ps[1..])
  }

  /** The matches of `/{([^{}]+)}/g`, in order, with the text between them. */
  function Tokenize(s: string): seq<Piece>
    decreases |s|
  {
    if s == [] then []
    else match GroupLen(s)
      case Some(n) => [Group(s[1..n + 1])] + Tokenize(s[n + 2..])
      case None => [Literal(s[0])] + Tokenize(s[1..])
  }

  /** Every group that matched has a non-empty interior without braces. */
  ghost predicate WellFormed(ps: seq<Piece>) {
    forall k :: 0 <= k < |ps| && ps[k].Group? ==>
      ps[k].body != [] && forall i :: 0 <= i < |ps[k].body| ==> !IsBrace(ps[k].body[i])
  }

  /** Tokenising loses nothing: rendering the pieces gives back the template,
      and every group that matched is brace-free. */
  lemma {:induction false} TokenizeRender(s: string)
    ensures Render(Tokenize(s)) == s
    ensures WellFormed(Tokenize(s))
    decreases |s|
  {
    if s != [] {
      match GroupLen(s)
      case Some(n) =>
        TokenizeRender(s[n + 2..]);
        TokenizeRenderGroupStep(s, n);
      case None =>
        TokenizeRender(s[1..]);
        TokenizeRenderLiteralStep(s);
    }
  }

  lemma TokenizeRenderGroupStep(s: string, n: nat)
    requires GroupLen(s) == Some(n)
    requires Render(Tokenize(s[n + 2..])) == s[n + 2..] && WellFormed(Tokenize(s[n + 2..]))
    ensures Render(Tokenize(s)) == s && WellFormed(Tokenize(s))
  {
    var b, ps := s[1..n + 1], Tokenize(s[n + 2..]);
    GroupShape(s, n);
    RenderFront(Group(b), ps);
    WellFormedFront(Group(b), ps);
  }

  /** A group found at the start of s splits it into `{`, the interior, `}` and the rest. */
  lemma GroupShape(s: string, n: nat)
    requires GroupLen(s) == Some(n)
    ensures s == "{" + s[1..n + 1] + "}" + s[n + 2..]
    ensures s[1..n + 1] != [] && BraceFree(s[1..n + 1])
  {
    GroupLenSound(s);
    var b := s[1..n + 1];
    assert forall i :: 0 <= i < |b| ==> b[i] == s[i + 1];
  }

  lemma TokenizeRenderLiteralStep(s: string)
    requires s != [] && GroupLen(s).None?
    requires Render(Tokenize(s[1..])) == s[1..] && WellFormed(Tokenize(s[1..]))
    ensures Render(Tokenize(s)) == s && WellFormed(Tokenize(s))
  {
    var ps := Tokenize(s[1..]);
    assert Tokenize(s) == [Literal(s[0])] + ps;
    RenderFront(Literal(s[0]), ps);
    WellFormedFront(Literal(s[0]), ps);
    assert s == [s[0]] + s[1..];
  }

  lemma RenderFront(p: Piece, ps: seq<Piece>)
    ensures Render([p] + ps) == RenderPiece(p) + Render(ps)
  {
    assert ([p] + ps)[1..] == ps;
  }

  lemma WellFormedFront(p: Piece, ps: seq<Piece>)
    requires WellFormed(ps)
    requires p.Group? ==> p.body != [] && BraceFree(p.body)
    ensures WellFormed([p] + ps)
  {
    assert forall k :: 1 <= k < |ps| + 1 ==> ([p] + ps)[k] == ps[k - 1];
  }

  function GroupCount(ps: seq<Piece>): nat {
    if ps == [] then 0 else (if ps[0].Group? then 1 else 0) + GroupCount(ps[1..])
  }

  /** Reference definition: some position of s starts a group. */
  ghost predicate HasGroup(s: string) {
    exists i: nat, n: nat :: i <= |s| && GroupAt(s[i..], n)
  }

  /** The tokeniser finds a group exactly when the template contains one. */
  lemma {:induction false} GroupCountPositive(s: string)
    ensures GroupCount(Tokenize(s)) > 0 <==> HasGroup(s)
    decreases |s|
  {
    if s == [] {
      assert forall i: nat, n: nat :: i <= |s| ==> !GroupAt(s[i..], n);
    } else {
      GroupLenSound(s);
      match GroupLen(s)
      case Some(n) =>
        assert s[0..] == s;
      case None =>
        GroupCountPositive(s[1..]);
        if HasGroup(s) {
          var i: nat, n: nat :| i <= |s| && GroupAt(s[i..], n);
          if i == 0 {
            assert s[0..] == s;
            GroupLenComplete(s, n);
          }
          assert s[1..][i - 1..] == s[i..];
        }
        if HasGroup(s[1..]) {
          var i: nat, n: nat :| i <= |s[1..]| && GroupAt(s[1..][i..], n);
          assert s[1..][i..] == s[i + 1..];
        }
    }
  }

  /** `content.split('|')`. */
  function Split(s: string, sep: char): (parts: seq<string>)
    ensures |parts| == Count(s, sep) + 1
  {
    if s == [] then [""]
    else
      var rest := Split(s[1..], sep);
      if s[0] == sep then [""] + rest else [[s[0]] + rest[0]] + rest[1..]
  }

  /** No part contains the separator, and none is longer than the text. */
  lemma {:induction false} SplitParts(s: string, sep: char)
    ensures forall k :: 0 <= k < |Split(s, sep)| ==> sep !in Split(s, sep)[k]
    ensures forall k :: 0 <= k < |Split(s, sep)| ==> |Split(s, sep)[k]| <= |s|
  {
    if s != [] {
      SplitParts(s[1..], sep);
    }
  }

  function Count(s: string, c: char): nat {
    if s == [] then 0 else (if s[0] == c then 1 else 0) + Count(s[1..], c)
  }

  function Join(parts: seq<string>, sep: char): string
    requires |parts| > 0
  {
    if |parts| == 1 then parts[0] else parts[0] + [sep] + Join(parts[1..], sep)
  }

  /** Splitting on the separator and joining again gives back the text. */
  lemma {:induction false} SplitJoin(s: string, sep: char)
    ensures Join(Split(s, sep), sep) == s
  {
    if s != [] {
      SplitJoin(s[1..], sep);
      var rest := Split(s[1..], sep);
      if s[0] != sep {
        if |rest| > 1 {
          assert ([[s[0]] + rest[0]] + rest[1..])[1..] == rest[1..];
        }
      }
    }
  }

  /** The alternatives of a group. */
  function Options(body: string): seq<string> {
    Split(body, '|')
  }

  /** One in-range index per matched group, in order: what `Math.random` supplies. */
  predicate ValidPicks(ps: seq<Piece>, picks: seq<nat>) {
    if ps == [] then picks == []
    else if ps[0].Literal? then ValidPicks(ps[1..], picks)
    else |picks| > 0 && picks[0] < |Options(ps[0].body)| && ValidPicks(ps[1..], picks[1..])
  }

  function Expand(ps: seq<Piece>, picks: seq<nat>): string
    requires ValidPicks(ps, picks)
  {
    if ps == [] then []
    else if ps[0].Literal? then [ps[0].c] + Expand(ps[1..], picks)
    else Options(ps[0].body)[picks[0]] + Expand(ps[1..], picks[1..])
  }

  /** Each group is at least two characters longer than the alternative replacing it. */
  lemma {:induction false} ExpandLength(ps: seq<Piece>, picks: seq<nat>)
    requires ValidPicks(ps, picks)
    ensures |Expand(ps, picks)| + 2 * GroupCount(ps) <= |Render(ps)|
  {
    if ps != [] {
      if ps[0].Literal? {
        ExpandLength(ps[1..], picks);
      } else {
        SplitParts(ps[0].body, '|');
        ExpandLength(ps[1..], picks[1..]);
      }
    }
  }

  lemma {:induction false} ExpandNoGroups(ps: seq<Piece>)
    requires GroupCount(ps) == 0
    ensures ValidPicks(ps, []) && Expand(ps, []) == Render(ps)
  {
    if ps != [] {
      ExpandNoGroups(ps[1..]);
    }
  }

  /** `processSpintax(text)` with the random choices supplied as `picks`. */
  function ProcessSpintax(text: string, picks: seq<nat>): (r: string)
    requires ValidPicks(Tokenize(text), picks)
  {
    Expand(Tokenize(text), picks)
  }

  /** Every template has a valid choice of picks (always the first alternative),
      so the requirement on `picks` never rules a template out. */
  function FirstPicks(ps: seq<Piece>): (picks: seq<nat>)
    ensures ValidPicks(ps, picks)
  {
    if ps == [] then []
    else if ps[0].Literal? then FirstPicks(ps[1..])
    else [0] + FirstPicks(ps[1..])
  }

  /** The output is never longer than the template, and is at least two
      characters shorter for every group that matched. */
  lemma ProcessSpintaxShorter(text: string, picks: seq<nat>)
    requires ValidPicks(Tokenize(text), picks)
    ensures |ProcessSpintax(text, picks)| + 2 * GroupCount(Tokenize(text)) <= |text|
    ensures HasGroup(text) ==> |ProcessSpintax(text, picks)| < |text|
  {
    TokenizeRender(text);
    ExpandLength(Tokenize(text), picks);
    GroupCountPositive(text);
  }

  /** A template in which no group matches is returned unchanged. */
  lemma NoGroupUnchanged(text: string)
    requires !HasGroup(text)
    ensures ValidPicks(Tokenize(text), []) && ProcessSpintax(text, []) == text
  {
    GroupCountPositive(text);
    ExpandNoGroups(Tokenize(text));
    TokenizeRender(text);
  }

  function Literals(s: string): (ps: seq<Piece>)
    ensures |ps| == |s| && GroupCount(ps) == 0
  {
    if s == [] then [] else [Literal(s[0])] + Literals(s[1..])
  }

  predicate BraceFree(s: string) {
    forall i :: 0 <= i < |s| ==> !IsBrace(s[i])
  }

  /** A brace-free prefix is kept character by character in front of the
      template's own pieces. */
  lemma {:induction false} TokenizeFreePrefix(x: string, s: string)
    requires BraceFree(x)
    ensures Tokenize(x + s) == Literals(x) + Tokenize(s)
  {
    if x != [] {
      SliceConcat(x, s, 0, 1);
      DropConcat(x, s, 1);
      assert BraceFree(x[1..]) by {
        assert forall i :: 0 <= i < |x[1..]| ==> x[1..][i] == x[i + 1];
      }
      TokenizeFreePrefix(x[1..], s);
      Assoc([Literal(x[0])], Literals(x[1..]), Tokenize(s));
    } else {
      assert x + s == s;
    }
  }

  /** Appending text after a group does not change the group. */
  lemma GroupLenAppend(s: string, y: string)
    requires GroupLen(s).Some?
    ensures GroupLen(s + y) == GroupLen(s)
  {
    GroupLenSound(s);
    var n := GroupLen(s).value;
    assert forall i :: 0 <= i < |s| ==> (s + y)[i] == s[i];
    assert GroupAt(s + y, n);
    GroupLenComplete(s + y, n);
  }

  /** Appending brace-free text cannot complete a group. */
  lemma GroupLenAppendFree(s: string, y: string)
    requires GroupLen(s).None? && BraceFree(y)
    ensures GroupLen(s + y).None?
  {
    GroupLenSound(s + y);
    if GroupLen(s + y).Some? {
      var n := GroupLen(s + y).value;
      assert forall i :: 0 <= i < |s| ==> (s + y)[i] == s[i];
      assert forall i :: |s| <= i < |s + y| ==> (s + y)[i] == y[i - |s|];
      GroupLenComplete(s, n);
    }
  }

  /** A brace-free suffix cannot complete a group: it is kept character by
      character after the template's own pieces. */
  lemma {:induction false} TokenizeFreeSuffix(s: string, y: string)
    requires BraceFree(y)
    ensures Tokenize(s + y) == Tokenize(s) + Literals(y)
    decreases |s|
  {
    if s == [] {
      assert s + y == y;
      TokenizeFreePrefix(y, []);
      assert y + [] == y;
      assert Tokenize(s) == [];
    } else if GroupLen(s).Some? {
      var n := GroupLen(s).value;
      TokenizeFreeSuffix(s[n + 2..], y);
      FreeSuffixGroupStep(s, n, y);
    } else {
      TokenizeFreeSuffix(s[1..], y);
      FreeSuffixLiteralStep(s, y);
    }
  }

  lemma FreeSuffixGroupStep(s: string, n: nat, y: string)
    requires GroupLen(s) == Some(n)
    requires Tokenize(s[n + 2..] + y) == Tokenize(s[n + 2..]) + Literals(y)
    ensures Tokenize(s + y) == Tokenize(s) + Literals(y)
  {
    GroupLenAppend(s, y);
    SliceConcat(s, y, 1, n + 1);
    DropConcat(s, y, n + 2);
    Assoc([Group(s[1..n + 1])], Tokenize(s[n + 2..]), Literals(y));
  }

  lemma FreeSuffixLiteralStep(s: string, y: string)
    requires s != [] && GroupLen(s).None? && BraceFree(y)
    requires Tokenize(s[1..] + y) == Tokenize(s[1..]) + Literals(y)
    ensures Tokenize(s + y) == Tokenize(s) + Literals(y)
  {
    GroupLenAppendFree(s, y);
    SliceConcat(s, y, 0, 1);
    DropConcat(s, y, 1);
    Assoc([Literal(s[0])], Tokenize(s[1..]), Literals(y));
  }

  lemma SliceConcat<T>(s: seq<T>, y: seq<T>, i: nat, j: nat)
    requires i <= j <= |s|
    ensures (s + y)[i..j] == s[i..j] && (i < |s| ==> (s + y)[i] == s[i])
  {
  }

  lemma DropConcat<T>(s: seq<T>, y: seq<T>, k: nat)
    requires k <= |s|
    ensures (s + y)[k..] == s[k..] + y
  {
  }

  lemma {:induction false} ExpandLiteralsPrefix(x: string, ps: seq<Piece>, picks: seq<nat>)
    ensures ValidPicks(Literals(x) + ps, picks) <==> ValidPicks(ps, picks)
    ensures ValidPicks(ps, picks) ==> Expand(Literals(x) + ps, picks) == x + Expand(ps, picks)
  {
    if x != [] {
      ExpandLiteralsPrefix(x[1..], ps, picks);
      assert Literals(x) == [Literal(x[0])] + Literals(x[1..]);
      assert (Literals(x) + ps)[1..] == Literals(x[1..]) + ps;
    } else {
      assert Literals(x) + ps == ps;
    }
  }

  lemma {:induction false} ExpandLiteralsSuffix(ps: seq<Piece>, y: string, picks: seq<nat>)
    ensures ValidPicks(ps + Literals(y), picks) <==> ValidPicks(ps, picks)
    ensures ValidPicks(ps, picks) ==> Expand(ps + Literals(y), picks) == Expand(ps, picks) + y
  {
    if ps == [] {
      assert ps + Literals(y) == Literals(y);
      ExpandNoGroups(Literals(y));
      TokenizeRenderLiterals(y);
      if ValidPicks(Literals(y), picks) {
        ValidPicksNoGroups(Literals(y), picks);
      }
    } else {
      assert (ps + Literals(y))[1..] == ps[1..] + Literals(y);
      if ps[0].Literal? {
        ExpandLiteralsSuffix(ps[1..], y, picks);
      } else if |picks| > 0 {
        ExpandLiteralsSuffix(ps[1..], y, picks[1..]);
      }
    }
  }

  lemma {:induction false} TokenizeRenderLiterals(y: string)
    ensures Render(Literals(y)) == y
  {
    if y != [] {
      TokenizeRenderLiterals(y[1..]);
      assert Literals(y)[1..] == Literals(y[1..]);
    }
  }

  lemma {:induction false} ValidPicksNoGroups(ps: seq<Piece>, picks: seq<nat>)
    requires GroupCount(ps) == 0 && ValidPicks(ps, picks)
    ensures picks == []
  {
    if ps != [] {
      ValidPicksNoGroups(ps[1..], picks);
    }
  }

  /** Text around the groups is kept in place: with a brace-free prefix x and
      suffix y, every expansion of x + t + y starts with x and ends with y. */
  lemma KeepsSurroundingText(x: string, t: string, y: string, picks: seq<nat>)
    requires BraceFree(x) && BraceFree(y)
    requires ValidPicks(Tokenize(t), picks)
    ensures ValidPicks(Tokenize(x + t + y), picks)
    ensures ProcessSpintax(x + t + y, picks) == x + ProcessSpintax(t, picks) + y
  {
    var ps := Tokenize(t);
    Assoc(x, t, y);
    TokenizeFreeSuffix(t, y);
    TokenizeFreePrefix(x, t + y);
    ExpandLiteralsSuffix(ps, y, picks);
    ExpandLiteralsPrefix(x, ps + Literals(y), picks);
    Assoc(x, Expand(ps, picks), y);
  }

  lemma Assoc<T>(a: seq<T>, b: seq<T>, c: seq<T>)
    ensures a + b + c == a + (b + c)
  {
  }

  lemma ExpandGroupFront(b: string, ps: seq<Piece>, i: nat, picks: seq<nat>)
    requires i < |Options(b)| && ValidPicks(ps, picks)
    ensures ValidPicks([Group(b)] + ps, [i] + picks)
    ensures Expand([Group(b)] + ps, [i] + picks) == Options(b)[i] + Expand(ps, picks)
  {
    assert ([Group(b)] + ps)[1..] == ps;
    assert ([i] + picks)[1..] == picks;
  }

  lemma ExpandLiteralFront(c: char, ps: seq<Piece>, picks: seq<nat>)
    ensures ValidPicks([Literal(c)] + ps, picks) <==> ValidPicks(ps, picks)
    ensures ValidPicks(ps, picks) ==> Expand([Literal(c)] + ps, picks) == [c] + Expand(ps, picks)
  {
    assert ([Literal(c)] + ps)[1..] == ps;
  }

  /** A matched group is consumed whole and the scan resumes after it. */
  lemma TokenizeGroup(b: string, rest: string)
    requires b != [] && BraceFree(b)
    ensures Tokenize("{" + b + "}" + rest) == [Group(b)] + Tokenize(rest)
  {
    var s := "{" + b + "}" + rest;
    assert forall i :: 1 <= i <= |b| ==> s[i] == b[i - 1];
    assert GroupAt(s, |b|);
    GroupLenComplete(s, |b|);
    assert s[1..|b| + 1] == b;
    assert s[|b| + 2..] == rest;
  }

  /** A character that does not start a group is kept and the scan moves on. */
  lemma TokenizeLiteral(c: char, rest: string)
    requires GroupLen([c] + rest).None?
    ensures Tokenize([c] + rest) == [Literal(c)] + Tokenize(rest)
  {
    assert ([c] + rest)[1..] == rest;
  }

  lemma {:induction false} SplitNoSep(s: string, sep: char)
    requires sep !in s
    ensures Split(s, sep) == [s]
  {
    CountAbsent(s, sep);
    SplitJoin(s, sep);
  }

  lemma {:induction false} SplitAtSep(a: string, sep: char, b: string)
    requires sep !in a
    ensures Split(a + [sep] + b, sep) == [a] + Split(b, sep)
  {
    if a == [] {
      assert a + [sep] + b == [sep] + b;
      assert ([sep] + b)[1..] == b;
    } else {
      assert (a + [sep] + b)[1..] == a[1..] + [sep] + b;
      SplitAtSep(a[1..], sep, b);
      assert [a[0]] + a[1..] == a;
    }
  }

  /** A group is replaced by the alternative its index selects: for a
      non-empty brace-free interior b, "{b}" expands to `b.split('|')[i]`. */
  lemma SingleGroup(b: string, i: nat)
    requires b != [] && BraceFree(b) && i < |Options(b)|
    ensures Tokenize("{" + b + "}") == [Group(b)]
    ensures ValidPicks(Tokenize("{" + b + "}"), [i])
    ensures ProcessSpintax("{" + b + "}", [i]) == Options(b)[i]
  {
    TokenizeGroup(b, "");
    assert "{" + b + "}" + "" == "{" + b + "}";
    assert Tokenize("") == [];
    ExpandGroupFront(b, [], i, []);
    assert [Group(b)] + [] == [Group(b)] && [i] + [] == [i];
  }

  /** A lone group takes exactly one in-range index. */
  lemma LoneGroupPicks(b: string, picks: seq<nat>)
    ensures ValidPicks([Group(b)], picks) <==> |picks| == 1 && picks[0] < |Options(b)|
  {
    assert [Group(b)][1..] == [];
  }

  lemma LonePickZero(b: string, picks: seq<nat>)
    requires |Options(b)| == 1
    ensures ValidPicks([Group(b)], picks) <==> picks == [0]
  {
    LoneGroupPicks(b, picks);
    if |picks| == 1 && picks[0] == 0 {
      assert picks == [0];
    }
  }

  /** `{x}` always gives `x`. */
  lemma OneAlternative(x: string)
    requires x != [] && BraceFree(x) && '|' !in x
    ensures forall picks :: ValidPicks(Tokenize("{" + x + "}"), picks) <==> picks == [0]
    ensures ProcessSpintax("{" + x + "}", [0]) == x
  {
    var t := "{" + x + "}";
    assert Options(x) == [x] by { SplitNoSep(x, '|'); }
    assert Tokenize(t) == [Group(x)] && ProcessSpintax(t, [0]) == x by { SingleGroup(x, 0); }
    forall picks ensures ValidPicks([Group(x)], picks) <==> picks == [0] {
      LonePickZero(x, picks);
    }
  }

  lemma {:induction false} CountAbsent(s: string, c: char)
    requires c !in s
    ensures Count(s, c) == 0
  {
    if s != [] {
      assert s[0] != c;
      CountAbsent(s[1..], c);
    }
  }

  /** A lone group gives one of its alternatives, whichever index is supplied. */
  lemma GroupGivesAlternative(b: string, picks: seq<nat>)
    requires b != [] && BraceFree(b)
    requires ValidPicks(Tokenize("{" + b + "}"), picks)
    ensures ProcessSpintax("{" + b + "}", picks) in Options(b)
  {
    var t := "{" + b + "}";
    assert Tokenize(t) == [Group(b)] by { SingleGroup(b, 0); }
    LoneGroupPicks(b, picks);
    assert picks == [picks[0]];
    SingleGroup(b, picks[0]);
  }

  lemma {:induction false} LiteralsConcat(x: string, y: string)
    ensures Literals(x + y) == Literals(x) + Literals(y)
  {
    if x == [] {
      assert x + y == y;
    } else {
      DropConcat(x, y, 1);
      LiteralsConcat(x[1..], y);
      Assoc([Literal(x[0])], Literals(x[1..]), Literals(y));
    }
  }

  lemma BraceFreeConcat(x: string, y: string)
    requires BraceFree(x) && BraceFree(y)
    ensures BraceFree(x + y)
  {
    assert forall i :: |x| <= i < |x + y| ==> (x + y)[i] == y[i - |x|];
  }

  /** The alternatives of `a|b`, when neither side has a separator. */
  lemma TwoOptions(a: string, b: string)
    requires '|' !in a && '|' !in b
    ensures Options(a + "|" + b) == [a, b]
  {
    SplitAtSep(a, '|', b);
    SplitNoSep(b, '|');
  }

  /** The alternatives of `a||b`, when neither side has a separator. */
  lemma ThreeOptions(a: string, b: string)
    requires '|' !in a && '|' !in b
    ensures Options(a + "||" + b) == [a, "", b]
  {
    assert a + "||" + b == a + "|" + ("" + "|" + b);
    SplitAtSep(a, '|', "" + "|" + b);
    TwoOptions("", b);
  }

  /** An empty alternative is kept: `{a||b}` gives `a`, the empty string or `b`. */
  lemma EmptyAlternative(a: string, b: string, picks: seq<nat>)
    requires BraceFree(a) && BraceFree(b) && '|' !in a && '|' !in b
    requires ValidPicks(Tokenize("{" + a + "||" + b + "}"), picks)
    ensures ProcessSpintax("{" + a + "||" + b + "}", picks) in {a, "", b}
  {
    var g := a + "||" + b;
    assert BraceFree(g) by {
      BraceFreeConcat(a, "||");
      BraceFreeConcat(a + "||", b);
    }
    ThreeOptions(a, b);
    assert "{" + a + "||" + b + "}" == "{" + g + "}" by {
      Assoc("{" + a, "||", b);
      Assoc("{", a, "||" + b);
    }
    GroupGivesAlternative(g, picks);
  }

  /** An opening brace followed by brace-free text and another opening brace is literal. */
  lemma TokenizeUnclosed(a: string, rest: string)
    requires BraceFree(a) && rest != [] && rest[0] == '{'
    ensures Tokenize("{" + a + rest) == Literals("{" + a) + Tokenize(rest)
  {
    var s := "{" + a + rest;
    UnclosedHead(a, rest);
    assert s == ['{'] + (a + rest);
    TokenizeLiteral('{', a + rest);
    TokenizeFreePrefix(a, rest);
    assert Literals("{" + a) == [Literal('{')] + Literals(a);
    Assoc([Literal('{')], Literals(a), Tokenize(rest));
  }

  lemma UnclosedHead(a: string, rest: string)
    requires BraceFree(a) && rest != [] && rest[0] == '{'
    ensures GroupLen("{" + a + rest).None?
  {
    var s := "{" + a + rest;
    assert forall i :: 1 <= i < |a| + 1 ==> s[i] == a[i - 1];
    assert s[|a| + 1] == '{';
    GroupLenBlocked(s, |a| + 1);
  }

  /** A closing brace is always literal. */
  lemma TokenizeClose(rest: string)
    ensures Tokenize("}" + rest) == [Literal('}')] + Tokenize(rest)
  {
    TokenizeLiteral('}', rest);
  }

  /** `{a{g}d}` tokenises as the literal `{a`, the group g and the literal `d}`. */
  lemma NestedTokens(a: string, g: string, d: string)
    requires BraceFree(a) && g != [] && BraceFree(g) && BraceFree(d)
    ensures Tokenize("{" + a + ("{" + g + "}" + (d + "}"))) == Literals("{" + a) + [Group(g)] + Literals(d + "}")
  {
    var y := d + "}";
    TokenizeUnclosed(a, "{" + g + "}" + y);
    TokenizeGroup(g, y);
    assert Tokenize(y) == Literals(y) by {
      TokenizeFreePrefix(d, "}");
      TokenizeClose([]);
      LiteralsConcat(d, "}");
      assert d + "}" + [] == y;
    }
    Assoc(Literals("{" + a), [Group(g)], Literals(y));
  }

  /** Only brace-free groups match: in `{a{b|c}d}` the outer braces stay and
      the inner group is replaced, giving `{abd}` or `{acd}`. */
  lemma NestedInnerOnly(a: string, b: string, c: string, d: string, picks: seq<nat>)
    requires BraceFree(a) && BraceFree(b) && BraceFree(c) && BraceFree(d)
    requires '|' !in b && '|' !in c
    requires ValidPicks(Tokenize("{" + a + "{" + b + "|" + c + "}" + d + "}"), picks)
    ensures ProcessSpintax("{" + a + "{" + b + "|" + c + "}" + d + "}", picks)
      in {"{" + a + b + d + "}", "{" + a + c + d + "}"}
  {
    var g := b + "|" + c;
    var x, y := "{" + a, d + "}";
    assert BraceFree(g) by {
      BraceFreeConcat(b, "|");
      BraceFreeConcat(b + "|", c);
    }
    assert "{" + a + "{" + b + "|" + c + "}" + d + "}" == "{" + a + ("{" + g + "}" + y);
    NestedTokens(a, g, d);
    TwoOptions(b, c);
    GroupBetweenLiterals(x, g, y, picks);
    Assoc(x + b, d, "}");
    Assoc(x + c, d, "}");
  }

  /** `{{g}}` tokenises as the literal `{`, the group g and the literal `}`. */
  lemma SinglePassTokens(b: string)
    requires b != [] && BraceFree(b)
    ensures Tokenize("{" + ("{" + b + "}" + "}")) == Literals("{") + [Group(b)] + Literals("}")
  {
    TokenizeOpenPrefix("{", "{" + b + "}" + "}");
    TokenizeGroup(b, "}");
    TokenizeNoOpen("}");
  }

  /** Replacements are not scanned again: `{{x}}` gives `{` + an alternative of x + `}`. */
  lemma SinglePass(b: string, picks: seq<nat>)
    requires b != [] && BraceFree(b)
    requires ValidPicks(Tokenize("{{" + b + "}}"), picks)
    ensures |picks| == 1 && picks[0] < |Options(b)|
    ensures ProcessSpintax("{{" + b + "}}", picks) == "{" + Options(b)[picks[0]] + "}"
  {
    assert "{{" + b + "}}" == "{" + ("{" + b + "}" + "}");
    SinglePassTokens(b);
    GroupBetweenLiterals("{", b, "}", picks);
  }

  /** `{}` has an empty interior and stays literal. */
  lemma EmptyBracesLiteral()
    ensures Tokenize("{}") == Literals("{}")
    ensures ValidPicks(Tokenize("{}"), []) && ProcessSpintax("{}", []) == "{}"
  {
    assert Tokenize("{}") == Literals("{}") by {
      assert GroupLen("{}") == None;
      TokenizeNoOpen("}");
    }
    ExpandNoGroups(Literals("{}"));
    TokenizeRenderLiterals("{}");
  }

  /** Text without an opening brace is all literal. */
  lemma {:induction false} TokenizeNoOpen(s: string)
    requires '{' !in s
    ensures Tokenize(s) == Literals(s)
  {
    if s != [] {
      assert s[0] != '{';
      assert '{' !in s[1..];
      TokenizeNoOpen(s[1..]);
    }
  }

  /** An opening brace is not a group when another opening brace comes
      before any closing brace. */
  lemma GroupLenBlocked(s: string, j: nat)
    requires 0 < j < |s| && s[j] == '{'
    requires forall i :: 1 <= i < j ==> s[i] != '}'
    ensures GroupLen(s).None?
  {
    GroupLenSound(s);
  }

  /** Text without a closing brace, followed by an opening brace, is all literal. */
  lemma {:induction false} TokenizeOpenPrefix(w: string, rest: string)
    requires '}' !in w && rest != [] && rest[0] == '{'
    ensures Tokenize(w + rest) == Literals(w) + Tokenize(rest)
  {
    if w == [] {
      assert w + rest == rest;
    } else {
      OpenPrefixHead(w, rest);
      DropConcat(w, rest, 1);
      assert '}' !in w[1..];
      TokenizeOpenPrefix(w[1..], rest);
      Assoc([Literal(w[0])], Literals(w[1..]), Tokenize(rest));
    }
  }

  lemma OpenPrefixHead(w: string, rest: string)
    requires '}' !in w && w != [] && rest != [] && rest[0] == '{'
    ensures GroupLen(w + rest).None? && (w + rest)[0] == w[0]
  {
    var s := w + rest;
    assert forall i :: 0 <= i < |w| ==> s[i] == w[i] && s[i] != '}';
    GroupLenBlocked(s, |w|);
  }

  /** A group between literal pieces takes one index and is replaced in place. */
  lemma GroupBetweenLiterals(x: string, b: string, y: string, picks: seq<nat>)
    requires ValidPicks(Literals(x) + [Group(b)] + Literals(y), picks)
    ensures |picks| == 1 && picks[0] < |Options(b)|
    ensures Expand(Literals(x) + [Group(b)] + Literals(y), picks) == x + Options(b)[picks[0]] + y
  {
    var g := [Group(b)];
    Assoc(Literals(x), g, Literals(y));
    ExpandLiteralsPrefix(x, g + Literals(y), picks);
    ExpandLiteralsSuffix(g, y, picks);
    LoneGroupPicks(b, picks);
    assert g[1..] == [];
    Assoc(x, Options(b)[picks[0]], y);
  }
}
