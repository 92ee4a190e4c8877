/**
  References inside template strings, read twice: by the engine's regular expression
  `@\{(payload|item)(?::([^}]+))?\}` and by the configuration loader's index-skipping loop.
 */
module References {
  import opened Values

  datatype Scope = Payload | Item

  /** A match of the regular expression: `path` is empty for a bare `@{scope}`. */
  datatype Match = Match(scope: Scope, path: string, start: nat, end: nat)

  /** A literal stretch of a template string, or a reference in it. */
  datatype Token = Lit(text: string) | Ref(scope: Scope, path: string)

  /** A field the loader's loop reports, and where. */
  datatype Hit = Hit(start: nat, field: string)

  // ---- The regular expression ----

  function Opening(scope: Scope): string {
    match scope
    case Payload => "@{payload"
    case Item => "@{item"
  }

  /** The text of a reference, as the regular expression spells it. */
  function Spelling(scope: Scope, path: string): string {
    Opening(scope) + (if path == "" then "}" else ":" + path + "}")
  }

  ghost predicate IsMatch(s: string, m: Match) {
    m.start <= m.end <= |s| && '}' !in m.path && s[m.start..m.end] == Spelling(m.scope, m.path)
  }

  /** What follows the scope name at `j`: `}`, or `:` with a non-empty path up to the next `}`. */
  function MatchTail(s: string, scope: Scope, start: nat, j: nat): (r: Option<Match>)
    requires start <= j
  {
    if j >= |s| then None
    else if s[j] == '}' then Some(Match(scope, "", start, j + 1))
    else if s[j] != ':' then None
    else
      var close := IndexOf(s, '}', j + 1);
      if close.None? || close.value == j + 1 then None
      else Some(Match(scope, s[j + 1..close.value], start, close.value + 1))
  }

  /** The match that starts at `i`, if any. */
  function MatchAt(s: string, i: nat): (r: Option<Match>)
    ensures r.Some? ==> r.value.start == i && i < r.value.end <= |s|
  {
    if StartsAt(s, i, Opening(Payload)) then MatchTail(s, Payload, i, i + |Opening(Payload)|)
    else if StartsAt(s, i, Opening(Item)) then MatchTail(s, Item, i, i + |Opening(Item)|)
    else None
  }

  /** `MatchAt` finds exactly the matches of the regular expression, and at most one per position. */
  lemma MatchAtIsTheRegex(s: string, m: Match)
    ensures IsMatch(s, m) <==> MatchAt(s, m.start) == Some(m)
  {
    if MatchAt(s, m.start) == Some(m) { MatchAtSound(s, m); }
    if IsMatch(s, m) { MatchAtComplete(s, m); }
  }

  lemma MatchAtSound(s: string, m: Match)
    requires MatchAt(s, m.start) == Some(m)
    ensures IsMatch(s, m)
  {
    hide Opening;
    MatchTailSound(s, m, m.start + |Opening(m.scope)|);
  }

  lemma MatchTailSound(s: string, m: Match, j: nat)
    requires m.start <= j <= |s| && s[m.start..j] == Opening(m.scope)
    requires MatchTail(s, m.scope, m.start, j) == Some(m)
    ensures IsMatch(s, m)
  {
    hide Opening;
    if s[j] == '}' {
      assert s[m.start..m.end] == s[m.start..j] + "}";
    } else {
      assert s[m.start..m.end] == s[m.start..j] + (":" + m.path + "}");
    }
  }

  lemma MatchAtComplete(s: string, m: Match)
    requires IsMatch(s, m)
    ensures MatchAt(s, m.start) == Some(m)
  {
    var i, text, n := m.start, s[m.start..m.end], |Opening(m.scope)|;
    OpeningCharacters(m.scope);
    hide Opening;
    assert text[..n] == Opening(m.scope);
    assert s[i..i + n] == text[..n];
    assert StartsAt(s, i, Opening(m.scope));
    CharacterAt(s, i, Opening(m.scope), 2);
    if m.scope == Item && StartsAt(s, i, Opening(Payload)) {
      OpeningCharacters(Payload);
      CharacterAt(s, i, Opening(Payload), 2);
      assert false;
    }
    MatchTailComplete(s, m);
  }

  lemma OpeningCharacters(scope: Scope)
    ensures |Opening(scope)| == if scope == Payload then 9 else 6
    ensures Opening(scope)[0] == '@' && Opening(scope)[2] == if scope == Payload then 'p' else 'i'
    ensures '}' !in Opening(scope)
  {
  }

  lemma CharacterAt(s: string, i: nat, p: string, k: nat)
    requires StartsAt(s, i, p) && k < |p|
    ensures s[i + k] == p[k]
  {
    assert s[i..i + |p|][k] == s[i + k];
  }

  lemma FirstCharacter(s: string, i: nat, p: string)
    requires i < |s| && p != ""
    ensures StartsAt(s, i, p) ==> s[i] == p[0]
  {
    if StartsAt(s, i, p) { CharacterAt(s, i, p, 0); }
  }

  lemma MatchTailComplete(s: string, m: Match)
    requires IsMatch(s, m)
    ensures MatchTail(s, m.scope, m.start, m.start + |Opening(m.scope)|) == Some(m)
  {
    hide Opening;
    var n := |Opening(m.scope)|;
    var rest := if m.path == "" then "}" else ":" + m.path + "}";
    SuffixOfSum(Opening(m.scope), rest);
    SuffixOfSlice(s, m.start, m.end, n);
    TailComplete(s, m, m.start + n);
  }

  lemma TailComplete(s: string, m: Match, j: nat)
    requires m.start <= j < m.end <= |s| && '}' !in m.path
    requires s[j..m.end] == if m.path == "" then "}" else ":" + m.path + "}"
    ensures MatchTail(s, m.scope, m.start, j) == Some(m)
  {
    var tail := s[j..m.end];
    assert s[j] == tail[0];
    if m.path != "" {
      assert s[m.end - 1] == tail[|tail| - 1] == '}';
      SliceOfSlice(s, j, m.end, 1, |tail| - 1);
      assert tail[1..|tail| - 1] == m.path;
      forall k | j + 1 <= k < m.end - 1 ensures s[k] != '}' {
        assert s[k] == m.path[k - j - 1];
      }
    }
  }

  lemma SuffixOfSum(a: string, b: string)
    ensures (a + b)[|a|..] == b
  {
  }

  lemma SuffixOfSlice(s: string, i: nat, e: nat, n: nat)
    requires i + n <= e <= |s|
    ensures s[i..e][n..] == s[i + n..e]
  {
  }

  lemma SliceOfSlice(s: string, i: nat, e: nat, a: nat, b: nat)
    requires i <= e <= |s| && a <= b <= e - i
    ensures s[i..e][a..b] == s[i + a..i + b]
  {
    forall k | 0 <= k < b - a ensures s[i..e][a..b][k] == s[i + a..i + b][k] {
      assert s[i..e][a + k] == s[i + a + k];
    }
  }

  /** Matching the text of a match on its own gives the same scope and path again. */
  lemma MatchOfItsText(s: string, m: Match)
    requires MatchAt(s, m.start) == Some(m)
    ensures MatchAt(s[m.start..m.end], 0) == Some(Match(m.scope, m.path, 0, m.end - m.start))
  {
    hide Opening, MatchTail, MatchAt;
    MatchAtSound(s, m);
    var text := s[m.start..m.end];
    assert text[0..|text|] == text;
    MatchAtComplete(text, Match(m.scope, m.path, 0, m.end - m.start));
  }

  /** Leftmost, non-overlapping matching from position `i` on: FindAll, and what ReplaceAll visits. */
  function Matches(s: string, i: nat): (ms: seq<Match>)
    decreases |s| - i
  {
    if i >= |s| then []
    else
      var m := MatchAt(s, i);
      if m.Some? then [m.value] + Matches(s, m.value.end) else Matches(s, i + 1)
  }

  /** Every listed match is one, lies at or after `i`, and they do not overlap. */
  lemma {:induction false} MatchesAreMatches(s: string, i: nat, n: nat)
    requires n < |Matches(s, i)|
    ensures i <= Matches(s, i)[n].start
    ensures MatchAt(s, Matches(s, i)[n].start) == Some(Matches(s, i)[n])
    ensures n > 0 ==> Matches(s, i)[n - 1].end <= Matches(s, i)[n].start
    decreases |s| - i
  {
    hide MatchAt;
    var m := MatchAt(s, i);
    if m.None? {
      MatchesAreMatches(s, i + 1, n);
    } else if n > 0 {
      MatchesAreMatches(s, m.value.end, n - 1);
    }
  }

  /** Nothing is skipped: wherever the expression matches, a listed match starts there or covers that position. */
  lemma {:induction false} EveryMatchIsCovered(s: string, i: nat, k: nat) returns (m: Match)
    requires i <= k < |s| && MatchAt(s, k).Some?
    ensures m in Matches(s, i) && m.start <= k < m.end
    decreases |s| - i
  {
    hide MatchAt;
    var first := MatchAt(s, i);
    if first.None? {
      m := EveryMatchIsCovered(s, i + 1, k);
    } else if k < first.value.end {
      m := first.value;
    } else {
      m := EveryMatchIsCovered(s, first.value.end, k);
    }
  }

  /** Where no match starts, matching can begin later. */
  lemma {:induction false} NothingBetween(s: string, i: nat, j: nat)
    requires i <= j <= |s|
    requires forall k :: i <= k < j ==> MatchAt(s, k).None?
    ensures Matches(s, i) == Matches(s, j)
    decreases j - i
  {
    hide MatchAt;
    if i < j { NothingBetween(s, i + 1, j); }
  }

  // ---- Tokens ----

  function SourceOf(token: Token): string {
    match token
    case Lit(text) => text
    case Ref(scope, path) => Spelling(scope, path)
  }

  function Source(tokens: seq<Token>): string {
    if tokens == [] then "" else SourceOf(tokens[0]) + Source(tokens[1..])
  }

  function Literal(s: string, from: nat, to: nat): (tokens: seq<Token>)
    requires from <= to <= |s|
  {
    if from == to then [] else [Lit(s[from..to])]
  }

  /** The references of `s` from `i` on with the text around them; literal text since `from` is pending. */
  function TokensFrom(s: string, from: nat, i: nat): (tokens: seq<Token>)
    requires from <= i <= |s|
    decreases |s| - i
  {
    if i == |s| then Literal(s, from, i)
    else
      var m := MatchAt(s, i);
      if m.None? then TokensFrom(s, from, i + 1)
      else Literal(s, from, i) + ([Ref(m.value.scope, m.value.path)] + TokensFrom(s, m.value.end, m.value.end))
  }

  function Tokenise(s: string): (tokens: seq<Token>) { TokensFrom(s, 0, 0) }

  /** Nothing of the string is lost or repeated by cutting it into tokens. */
  lemma TokensSpellTheString(s: string)
    ensures Source(Tokenise(s)) == s
  {
    TokensSpell(s, 0, 0);
    assert s[0..] == s;
  }

  lemma {:induction false} TokensSpell(s: string, from: nat, i: nat)
    requires from <= i <= |s|
    ensures Source(TokensFrom(s, from, i)) == s[from..]
    decreases |s| - i
  {
    hide MatchAt, Spelling;
    if i == |s| {
      assert s[from..i] == s[from..];
      SourceOfLiteral(s, from, i);
    } else if MatchAt(s, i).None? {
      TokensSpell(s, from, i + 1);
    } else {
      var m := MatchAt(s, i).value;
      TokensSpell(s, m.end, m.end);
      MatchAtSound(s, m);
      SourceAround(s, from, m, TokensFrom(s, m.end, m.end));
    }
  }

  lemma SourceAround(s: string, from: nat, m: Match, rest: seq<Token>)
    requires IsMatch(s, m) && from <= m.start && Source(rest) == s[m.end..]
    ensures Source(Literal(s, from, m.start) + ([Ref(m.scope, m.path)] + rest)) == s[from..]
  {
    var ref := Ref(m.scope, m.path);
    SourceOfLiteral(s, from, m.start);
    SourceOfFirst(ref, rest);
    SourceSplits(Literal(s, from, m.start), [ref] + rest);
    hide Spelling, Literal, Source;
    Slices(s, m.start, m.end);
    Slices(s, from, m.start);
  }

  lemma Slices(s: string, a: nat, b: nat)
    requires a <= b <= |s|
    ensures s[a..b] + s[b..] == s[a..]
  {
  }

  lemma SourceOfFirst(token: Token, rest: seq<Token>)
    ensures Source([token] + rest) == SourceOf(token) + Source(rest)
  {
    hide SourceOf;
    assert ([token] + rest)[1..] == rest;
  }

  lemma SourceOfLiteral(s: string, from: nat, to: nat)
    requires from <= to <= |s|
    ensures Source(Literal(s, from, to)) == s[from..to]
  {
    if from < to { assert [Lit(s[from..to])][1..] == []; }
  }

  lemma {:induction false} SourceSplits(a: seq<Token>, b: seq<Token>)
    ensures Source(a + b) == Source(a) + Source(b)
  {
    if a == [] {
      assert a + b == b;
    } else {
      SourceSplits(a[1..], b);
      SumUnfolds(a, b);
      hide SourceOf, Source;
      Associate(SourceOf(a[0]), Source(a[1..]), Source(b));
    }
  }

  lemma SumUnfolds(a: seq<Token>, b: seq<Token>)
    requires a != []
    ensures Source(a + b) == SourceOf(a[0]) + Source(a[1..] + b)
    ensures Source(a) == SourceOf(a[0]) + Source(a[1..])
  {
    hide SourceOf;
    assert (a + b)[1..] == a[1..] + b;
  }

  lemma Associate(x: string, y: string, z: string)
    ensures (x + y) + z == x + (y + z)
  {
  }

  /** A string is one lone reference exactly when its first match covers all of it. */
  lemma OneTokenIsACoveringMatch(s: string)
    ensures (|Tokenise(s)| == 1 && Tokenise(s)[0].Ref?) <==>
        (s != "" && MatchAt(s, 0).Some? && MatchAt(s, 0).value.end == |s|)
    ensures forall scope, path :: Tokenise(s) == [Ref(scope, path)] ==>
        MatchAt(s, 0) == Some(Match(scope, path, 0, |s|))
  {
    hide MatchAt;
    if s != "" && MatchAt(s, 0).Some? {
      var m := MatchAt(s, 0).value;
      assert Tokenise(s) == [Ref(m.scope, m.path)] + TokensFrom(s, m.end, m.end);
      TokensAreNonEmpty(s, m.end, m.end);
    } else if s != "" {
      TokensAreNonEmpty(s, 0, 1);
    }
  }

  lemma {:induction false} TokensAreNonEmpty(s: string, from: nat, i: nat)
    requires from <= i <= |s|
    ensures from < |s| ==> |TokensFrom(s, from, i)| >= 1
    ensures from < i ==> TokensFrom(s, from, i)[0].Lit?
    decreases |s| - i
  {
    hide MatchAt;
    if i < |s| && MatchAt(s, i).None? { TokensAreNonEmpty(s, from, i + 1); }
  }

  // ---- The loader's scanner ----

  /** What the loader keeps of a path: up to the first dot, unless the path starts with it. */
  function Cut(path: string): (field: string) {
    var dot := IndexOf(path, '.', 0);
    if dot.Some? && dot.value > 0 then path[..dot.value] else path
  }

  const MARKER: string := "@{payload:"

  predicate Fires(s: string, i: nat) {
    i + 10 < |s| && StartsAt(s, i, MARKER)
  }

  /** The fields the loader's loop reports from position `i` on. */
  function Hits(s: string, i: nat): (hits: seq<Hit>)
    decreases |s| - i
  {
    if i >= |s| then []
    else if Fires(s, i) && IndexOf(s, '}', i).Some? then
      MarkerHasNoBrace(s, i);
      var close := IndexOf(s, '}', i).value;
      Reported(i, Cut(s[i + 10..close])) + Hits(s, close + 1)
    else Hits(s, i + 1)
  }

  function Reported(i: nat, field: string): seq<Hit> {
    if field == "" then [] else [Hit(i, field)]
  }

  lemma MarkerHasNoBrace(s: string, i: nat)
    requires Fires(s, i)
    ensures forall k :: i <= k < i + 10 ==> s[k] != '}'
    ensures forall k :: i < k < i + 10 ==> s[k] != '@'
    ensures StartsAt(s, i, Opening(Payload)) && s[i + 9] == ':'
  {
    var t := s[i..i + 10];
    assert t == "@{payload:";
    assert t[..9] == "@{payload" == s[i..i + 9];
    forall k | i <= k < i + 10 ensures s[k] == t[k - i] {}
  }

  /** The scanning loop, with its own index arithmetic. */
  method Scan(s: string) returns (hits: seq<Hit>)
    ensures hits == Hits(s, 0)
  {
    hide *;
    hits := [];
    var i := 0;
    ScanStarts(s);
    while i < |s|
      invariant 0 <= i
      invariant ScannedTo(s, i, hits)
    {
      FiresWhen(s, i);
      ScanOn(s, i, hits);
      if s[i] == '@' && i + 10 < |s| && s[i..i + 10] == MARKER {
        var close := IndexOf(s, '}', i);
        if close.Some? && close.value - i > 0 {
          var end := close.value - i;
          var ref := FirstSegment(s[i + 10..i + end]);
          if |ref| > 0 { hits := hits + [Hit(i, ref)]; }
          i := i + end;
        }
      }
      i := i + 1;
    }
    ScanEnds(s, i, hits);
  }

  lemma ScanStarts(s: string)
    ensures ScannedTo(s, 0, [])
  {
  }

  lemma ScanEnds(s: string, i: nat, hits: seq<Hit>)
    requires i >= |s| && ScannedTo(s, i, hits)
    ensures hits == Hits(s, 0)
  {
  }

  /** The loop stands at `i` and has reported everything before. */
  ghost predicate ScannedTo(s: string, i: nat, hits: seq<Hit>) {
    hits + Hits(s, i) == Hits(s, 0)
  }

  lemma ScanOn(s: string, i: nat, hits: seq<Hit>)
    requires i < |s| && ScannedTo(s, i, hits)
    ensures Fires(s, i) && IndexOf(s, '}', i).Some? ==>
      && i + 10 <= IndexOf(s, '}', i).value
      && var field := Cut(s[i + 10..IndexOf(s, '}', i).value]);
         ScannedTo(s, IndexOf(s, '}', i).value + 1, if |field| == 0 then hits else hits + [Hit(i, field)])
    ensures !Fires(s, i) || IndexOf(s, '}', i).None? ==> ScannedTo(s, i + 1, hits)
  {
    hide *;
    HitsUnfold(s, i);
    ScannedMeans(s, i, hits);
    ScannedMeans(s, i + 1, hits);
    if Fires(s, i) && IndexOf(s, '}', i).Some? {
      var close := IndexOf(s, '}', i).value;
      var field := Cut(s[i + 10..close]);
      Append(hits, i, field, Hits(s, close + 1), Hits(s, 0));
      ScannedMeans(s, close + 1, if |field| == 0 then hits else hits + [Hit(i, field)]);
    }
  }

  lemma ScannedMeans(s: string, i: nat, hits: seq<Hit>)
    ensures ScannedTo(s, i, hits) <==> hits + Hits(s, i) == Hits(s, 0)
  {
  }

  lemma HitsUnfold(s: string, i: nat)
    requires i < |s|
    ensures Fires(s, i) && IndexOf(s, '}', i).Some? ==>
      && i + 10 <= IndexOf(s, '}', i).value
      && Hits(s, i) == Reported(i, Cut(s[i + 10..IndexOf(s, '}', i).value])) + Hits(s, IndexOf(s, '}', i).value + 1)
    ensures !Fires(s, i) || IndexOf(s, '}', i).None? ==> Hits(s, i) == Hits(s, i + 1)
  {
    if Fires(s, i) { MarkerHasNoBrace(s, i); }
    hide Fires, Cut;
  }

  /** Up to the first dot, for nested paths. */
  method FirstSegment(path: string) returns (ref: string)
    ensures ref == Cut(path)
  {
    ref := path;
    var dot := IndexOf(ref, '.', 0);
    if dot.Some? && dot.value > 0 { ref := ref[..dot.value]; }
  }

  lemma Append(hits: seq<Hit>, i: nat, field: string, rest: seq<Hit>, total: seq<Hit>)
    requires hits + (Reported(i, field) + rest) == total
    ensures (if |field| == 0 then hits else hits + [Hit(i, field)]) + rest == total
  {
  }

  lemma FiresWhen(s: string, i: nat)
    requires i < |s|
    ensures Fires(s, i) <==> s[i] == '@' && i + 10 < |s| && s[i..i + 10] == MARKER
  {
    if Fires(s, i) { CharacterAt(s, i, MARKER, 0); }
  }

  /** What the scanner reports at `i` is what the regular expression matches there, cut at the dot. */
  lemma FiringIsMatching(s: string, i: nat)
    requires Fires(s, i) && IndexOf(s, '}', i).Some?
    ensures i + 10 <= IndexOf(s, '}', i).value
    ensures
      var close := IndexOf(s, '}', i).value;
      MatchAt(s, i) == if close == i + 10 then None else Some(Match(Payload, s[i + 10..close], i, close + 1))
  {
    MarkerHasNoBrace(s, i);
    assert |Opening(Payload)| == 9;
    hide Opening, StartsAt;
  }

  lemma MatchingFires(s: string, i: nat)
    requires MatchAt(s, i).Some? && MatchAt(s, i).value.scope == Payload && MatchAt(s, i).value.path != ""
    ensures Fires(s, i) && IndexOf(s, '}', i).Some?
  {
    assert StartsAt(s, i, Opening(Payload)) && s[i + 9] == ':';
    var m := MatchAt(s, i).value;
    assert s[i..i + 10] == s[i..i + 9] + ":";
    assert Opening(Payload) + ":" == MARKER;
    assert s[m.end - 1] == '}';
  }

  /**
    The scanner over-approximates the regular expression: every `@{payload:path}` found by
    leftmost non-overlapping matching is reported at the same position, cut at its first dot.
   */
  lemma ScannerCoversRegex(s: string, m: Match)
    requires m in Matches(s, 0) && m.scope == Payload && m.path != ""
    ensures Hit(m.start, Cut(m.path)) in Hits(s, 0)
  {
    ScannerCoversFrom(s, 0, m);
  }

  lemma {:induction false} ScannerCoversFrom(s: string, i: nat, m: Match)
    requires m in Matches(s, i) && m.scope == Payload && m.path != ""
    ensures Hit(m.start, Cut(m.path)) in Hits(s, i)
    decreases |s| - i
  {
    hide Fires, Cut, MatchTail, Opening, Matches;
    hide MatchAt;
    MatchesUnfold(s, i);
    if MatchAt(s, i).Some? {
      var m0 := MatchAt(s, i).value;
      if m == m0 {
        MatchingFires(s, i);
        FiringIsMatching(s, i);
        CutKeepsSomething(m.path);
      } else {
        ScannerCoversFrom(s, m0.end, m);
        MatchEndsAtFirstBrace(s, i);
        CatchUp(s, i, m0.end);
      }
    } else if Fires(s, i) && IndexOf(s, '}', i).Some? {
      FiringIsMatching(s, i);
      NoMatchInsideMarker(s, i);
      NothingBetween(s, i, i + 11);
      ScannerCoversFrom(s, i + 11, m);
    } else {
      ScannerCoversFrom(s, i + 1, m);
    }
  }

  lemma MatchesUnfold(s: string, i: nat)
    ensures Matches(s, i) ==
      if i >= |s| then []
      else if MatchAt(s, i).Some? then [MatchAt(s, i).value] + Matches(s, MatchAt(s, i).value.end)
      else Matches(s, i + 1)
  {
  }

  lemma CutKeepsSomething(path: string)
    ensures path != "" <==> Cut(path) != ""
  {
  }

  lemma MatchEndsAtFirstBrace(s: string, i: nat)
    requires MatchAt(s, i).Some?
    ensures s[MatchAt(s, i).value.end - 1] == '}'
    ensures forall k :: i <= k < MatchAt(s, i).value.end - 1 ==> s[k] != '}'
  {
    var m := MatchAt(s, i).value;
    OpeningCharacters(m.scope);
    hide Opening;
    forall k | i <= k < i + |Opening(m.scope)| ensures s[k] != '}' {
      CharacterAt(s, i, Opening(m.scope), k - i);
    }
  }

  lemma NoMatchInsideMarker(s: string, i: nat)
    requires Fires(s, i) && s[i + 10] == '}' && MatchAt(s, i).None?
    ensures forall k :: i <= k < i + 11 ==> MatchAt(s, k).None?
  {
    MarkerHasNoBrace(s, i);
    forall k | i < k < i + 11 ensures MatchAt(s, k).None? {
      assert s[k] != '@';
      MatchesStartAtAnAt(s, k);
    }
  }

  lemma MatchesStartAtAnAt(s: string, k: nat)
    requires k < |s| && s[k] != '@'
    ensures MatchAt(s, k).None?
  {
    OpeningCharacters(Payload);
    OpeningCharacters(Item);
    hide Opening;
    FirstCharacter(s, k, Opening(Payload));
    FirstCharacter(s, k, Opening(Item));
  }

  /** Wherever the scanner stands before the brace that ends a match, it resumes behind that brace. */
  lemma {:induction false} CatchUp(s: string, q: nat, e: nat)
    requires q < e <= |s| && s[e - 1] == '}'
    requires forall k :: q <= k < e - 1 ==> s[k] != '}'
    ensures forall h :: h in Hits(s, e) ==> h in Hits(s, q)
    decreases e - q
  {
    hide Fires, Cut;
    if Fires(s, q) {
      assert IndexOf(s, '}', q) == Some(e - 1);
    } else if q + 1 < e {
      CatchUp(s, q + 1, e);
    }
  }

  /** Conversely, every report is a payload reference of the regular expression at that position. */
  lemma {:induction false} ScannerReportsReferences(s: string, i: nat, h: Hit)
    requires h in Hits(s, i)
    ensures i <= h.start && MatchAt(s, h.start).Some?
    ensures
      var m := MatchAt(s, h.start).value;
      m.scope == Payload && m.path != "" && h.field == Cut(m.path)
    decreases |s| - i
  {
    hide Fires, Cut, MatchTail, MatchAt;
    if Fires(s, i) && IndexOf(s, '}', i).Some? {
      FiringIsMatching(s, i);
      var close := IndexOf(s, '}', i).value;
      CutKeepsSomething(s[i + 10..close]);
      if h !in Reported(i, Cut(s[i + 10..close])) { ScannerReportsReferences(s, close + 1, h); }
    } else {
      ScannerReportsReferences(s, i + 1, h);
    }
  }

  // ---- When a report is no match of its own ----

  /** The report is the payload reference, with a path, of a listed match that starts where it does. */
  ghost predicate Listed(s: string, h: Hit) {
    exists m :: m in Matches(s, 0) && m.start == h.start && m.scope == Payload && m.path != "" && Cut(m.path) == h.field
  }

  /** The report starts inside a listed item reference. */
  ghost predicate Nested(s: string, h: Hit) {
    exists m :: m in Matches(s, 0) && m.scope == Item && m.start < h.start < m.end
  }

  /** A report is a listed match exactly when it is not nested in a listed item reference. */
  lemma ReportIsListedIff(s: string, h: Hit)
    requires h in Hits(s, 0)
    ensures Listed(s, h) <==> !Nested(s, h)
  {
    hide Matches, Hits, MatchAt, Cut;
    var m := ReportIsListedOrNested(s, 0, h);
    ScannerReportsReferences(s, 0, h);
    forall m, m' | m in Matches(s, 0) && m' in Matches(s, 0) && m.start < m'.start ensures m.end <= m'.start {
      MatchesAreDisjoint(s, 0, m, m');
    }
  }

  /**
    The scanner reports exactly the listed payload references with a path when no report is nested in an item
    reference.
   */
  lemma ScannerAgreesIff(s: string)
    ensures (forall h :: h in Hits(s, 0) <==> Listed(s, h)) <==> (forall h :: h in Hits(s, 0) ==> !Nested(s, h))
  {
    forall h | Listed(s, h) ensures h in Hits(s, 0) {
      var m :| m in Matches(s, 0) && m.start == h.start && m.scope == Payload && m.path != "" && Cut(m.path) == h.field;
      ScannerCoversRegex(s, m);
    }
    forall h | h in Hits(s, 0) ensures Listed(s, h) <==> !Nested(s, h) { ReportIsListedIff(s, h); }
    hide Hits, Listed, Nested;
  }

  lemma {:induction false} MatchesAreDisjoint(s: string, i: nat, m: Match, m': Match)
    requires m in Matches(s, i) && m' in Matches(s, i) && m.start < m'.start
    ensures m.end <= m'.start
    decreases |s| - i
  {
    hide MatchAt;
    var first := MatchAt(s, i);
    if first.None? {
      MatchesAreDisjoint(s, i + 1, m, m');
    } else {
      if m' != first.value { ListedStartsLater(s, first.value.end, m'); }
      if m != first.value {
        ListedStartsLater(s, first.value.end, m);
        if m' != first.value { MatchesAreDisjoint(s, first.value.end, m, m'); }
      }
    }
  }

  lemma {:induction false} ListedStartsLater(s: string, i: nat, m: Match)
    requires m in Matches(s, i)
    ensures i <= m.start && MatchAt(s, m.start) == Some(m)
    decreases |s| - i
  {
    hide MatchAt;
    var first := MatchAt(s, i);
    if first.None? {
      ListedStartsLater(s, i + 1, m);
    } else if m != first.value {
      ListedStartsLater(s, first.value.end, m);
    }
  }

  /** From a position where both stand, each report starts a listed match or lies inside a listed item reference. */
  lemma {:induction false} ReportIsListedOrNested(s: string, i: nat, h: Hit) returns (m: Match)
    requires h in Hits(s, i)
    ensures m in Matches(s, i)
    ensures (m.start == h.start && m.scope == Payload && m.path != "" && Cut(m.path) == h.field)
            || (m.scope == Item && m.start < h.start < m.end)
    decreases |s| - i
  {
    hide Fires, Cut, MatchTail, Opening, Matches, MatchAt, StartsAt;
    ScannerReportsReferences(s, i, h);
    MatchesUnfold(s, i);
    if MatchAt(s, i).Some? {
      var m0 := MatchAt(s, i).value;
      MatchEndsAtFirstBrace(s, i);
      CatchUpBack(s, i, m0.end, h);
      if h in Hits(s, m0.end) {
        m := ReportIsListedOrNested(s, m0.end, h);
      } else {
        m := m0;
        if m0.scope == Payload && m0.path != "" {
          MatchingFires(s, i);
          FiringIsMatching(s, i);
          CutKeepsSomething(m0.path);
        } else if m0.scope == Payload {
          BareReferenceHidesNothing(s, i);
        }
      }
    } else if Fires(s, i) && IndexOf(s, '}', i).Some? {
      FiringIsMatching(s, i);
      NoMatchInsideMarker(s, i);
      NothingBetween(s, i, i + 11);
      m := ReportIsListedOrNested(s, i + 11, h);
    } else {
      m := ReportIsListedOrNested(s, i + 1, h);
    }
  }

  /** Reports from `q` on start before the brace that ends a match, or come from behind it. */
  lemma {:induction false} CatchUpBack(s: string, q: nat, e: nat, h: Hit)
    requires q < e <= |s| && s[e - 1] == '}' && h in Hits(s, q)
    requires forall k :: q <= k < e - 1 ==> s[k] != '}'
    ensures q <= h.start < e || h in Hits(s, e)
    decreases e - q
  {
    hide Fires, Cut;
    if Fires(s, q) {
      assert IndexOf(s, '}', q) == Some(e - 1);
    } else if q + 1 < e {
      CatchUpBack(s, q + 1, e, h);
    }
  }

  /** No reference starts inside a bare `@{payload}`. */
  lemma BareReferenceHidesNothing(s: string, i: nat)
    requires MatchAt(s, i).Some? && MatchAt(s, i).value.scope == Payload && MatchAt(s, i).value.path == ""
    ensures forall k :: i < k < MatchAt(s, i).value.end ==> MatchAt(s, k).None?
  {
    var m := MatchAt(s, i).value;
    MatchAtSound(s, m);
    assert s[i..m.end] == "@{payload" + "}" == "@{payload}";
    forall k | i < k < m.end ensures MatchAt(s, k).None? {
      assert s[k] == s[i..m.end][k - i];
      MatchesStartAtAnAt(s, k);
    }
  }

  /** The scanner can report more: a reference spelled inside an item path is no match of its own. */
  lemma ScannerReportsMore(path: string)
    requires path != "" && '}' !in path && '.' !in path && '@' !in path
    ensures
      var s := "@{item:" + "@{payload:" + path + "}";
      Hits(s, 0) == [Hit(7, path)] && Matches(s, 0) == [Match(Item, "@{payload:" + path, 0, |s|)]
  {
    var s := "@{item:" + "@{payload:" + path + "}";
    var whole := "@{payload:" + path;
    assert "@{item:" == "@{item" + ":";
    assert s == "@{item" + (":" + whole + "}") == Spelling(Item, whole);
    ASpellingIsOneMatch(Item, whole);
    hide Spelling, Matches, Hits;
    NestedIsReported(s, path);
  }

  lemma ASpellingIsOneMatch(scope: Scope, path: string)
    requires '}' !in path
    ensures
      var s := Spelling(scope, path);
      Matches(s, 0) == [Match(scope, path, 0, |s|)]
  {
    var s := Spelling(scope, path);
    assert s[0..|s|] == s;
    MatchAtComplete(s, Match(scope, path, 0, |s|));
    hide MatchAt, Spelling;
    assert Matches(s, |s|) == [];
  }

  lemma NestedIsReported(s: string, path: string)
    requires s == "@{item:" + "@{payload:" + path + "}"
    requires path != "" && '}' !in path && '.' !in path
    ensures Hits(s, 0) == [Hit(7, path)]
  {
    assert s[7..17] == MARKER && s[17..|s| - 1] == path && s[|s| - 1] == '}';
    assert Fires(s, 7);
    forall k | 0 <= k < 7 ensures !Fires(s, k) {
      assert s[k] == "@{item:"[k];
      assert s[2] == "@{item:"[2] == 'i';
      if Fires(s, k) { CharacterAt(s, k, MARKER, 0); CharacterAt(s, k, MARKER, 2); assert false; }
    }
    NoFireBefore(s, 0, 7);
    FirstBrace(s, path);
    assert Cut(path) == path;
    hide Fires, Cut, MARKER;
    assert Hits(s, |s|) == [];
  }

  lemma FirstBrace(s: string, path: string)
    requires |s| > 17 && Fires(s, 7) && s[17..|s| - 1] == path && s[|s| - 1] == '}' && '}' !in path
    ensures IndexOf(s, '}', 7) == Some(|s| - 1)
  {
    MarkerHasNoBrace(s, 7);
    forall k | 17 <= k < |s| - 1 ensures s[k] != '}' { assert s[k] == path[k - 17]; }
  }

  lemma {:induction false} NoFireBefore(s: string, i: nat, j: nat)
    requires i <= j <= |s|
    requires forall k :: i <= k < j ==> !Fires(s, k)
    ensures Hits(s, i) == Hits(s, j)
    decreases j - i
  {
    hide Fires;
    if i < j { NoFireBefore(s, i + 1, j); }
  }

  // ---- Paths ----

  /** `strings.Split(path, ".")`. */
  function Split(path: string): (parts: seq<string>)
    ensures |parts| >= 1
    decreases |path|
  {
    var dot := IndexOf(path, '.', 0);
    if dot.None? then [path] else [path[..dot.value]] + Split(path[dot.value + 1..])
  }

  function Join(parts: seq<string>): (path: string)
    requires |parts| >= 1
  {
    if |parts| == 1 then parts[0] else parts[0] + "." + Join(parts[1..])
  }

  /** The segments of a path carry no dot and put the path together again. */
  lemma {:induction false} SplitJoins(path: string)
    ensures Join(Split(path)) == path
    ensures forall k :: 0 <= k < |Split(path)| ==> '.' !in Split(path)[k]
    decreases |path|
  {
    var dot := IndexOf(path, '.', 0);
    if dot.Some? {
      SplitJoins(path[dot.value + 1..]);
      assert path == path[..dot.value] + "." + path[dot.value + 1..];
      assert Split(path)[1..] == Split(path[dot.value + 1..]);
    }
  }

  /** And segments without a dot are what their path is split into. */
  lemma {:induction false} JoinSplits(parts: seq<string>)
    requires |parts| >= 1 && forall k :: 0 <= k < |parts| ==> '.' !in parts[k]
    ensures Split(Join(parts)) == parts
  {
    if |parts| == 1 {
      assert IndexOf(parts[0], '.', 0).None?;
    } else {
      JoinSplits(parts[1..]);
      SplitFirst(parts[0], Join(parts[1..]));
      assert Join(parts) == parts[0] + "." + Join(parts[1..]);
    }
  }

  lemma SplitFirst(key: string, rest: string)
    requires '.' !in key
    ensures Split(key + "." + rest) == [key] + Split(rest)
  {
    var path := key + "." + rest;
    assert path[|key|] == '.' && path[..|key|] == key && path[|key| + 1..] == rest;
    assert IndexOf(path, '.', 0) == Some(|key|);
  }

  /** The loader checks the key the engine looks up first, unless the path starts with a dot. */
  lemma CutIsTheFirstKey(path: string)
    requires path != ""
    ensures Cut(path) == Split(path)[0] <==> path[0] != '.'
  {
  }
}
