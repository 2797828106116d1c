/** Snippet search and the paged listing of the knowledge reader (backend/src/knowledge/reader.py). */
module KnowledgeReader {
  import opened Wrappers
  import opened Whitespace

  const MAX_SNIPPETS := 2
  const SNIPPET_CONTEXT := 60

  // ----- occurrences

  predicate Occurs(text: string, keyword: string, i: nat) {
    i + |keyword| <= |text| && text[i..i + |keyword|] == keyword
  }

  /** `str.find` from `start` on. */
  function Find(text: string, keyword: string, start: nat): (r: Option<nat>)
    requires start <= |text|
    ensures r.Some? ==> start <= r.value && Occurs(text, keyword, r.value) && forall j | start <= j < r.value :: !Occurs(text, keyword, j)
    ensures r.None? ==> forall j | start <= j :: !Occurs(text, keyword, j)
    decreases |text| - start
  {
    if Occurs(text, keyword, start) then Some(start)
    else if start == |text| then None
    else Find(text, keyword, start + 1)
  }

  function Width(keyword: string): nat { if |keyword| > 1 then |keyword| else 1 }

  /** The positions the greedy search stops at. */
  function Greedy(text: string, keyword: string, start: nat): seq<nat>
    decreases |text| - start
  {
    if start >= |text| then []
    else match Find(text, keyword, start)
         case None => []
         case Some(i) => [i] + Greedy(text, keyword, i + Width(keyword))
  }

  /** Occurrences in order that do not overlap. */
  ghost predicate Apart(text: string, keyword: string, positions: seq<nat>) {
    && (forall i | 0 <= i < |positions| :: Occurs(text, keyword, positions[i]))
    && (forall i, j | 0 <= i < j < |positions| :: positions[i] + |keyword| <= positions[j])
  }

  /** One step of the greedy search. */
  lemma GreedyStep(text: string, keyword: string, start: nat)
    requires keyword != [] && Greedy(text, keyword, start) != []
    ensures start < |text| && Find(text, keyword, start).Some?
    ensures var i := Find(text, keyword, start).value;
            && start <= i && Occurs(text, keyword, i)
            && Greedy(text, keyword, start) == [i] + Greedy(text, keyword, i + |keyword|)
  {
    hide Occurs;
  }

  lemma ApartCons(text: string, keyword: string, i: nat, rest: seq<nat>)
    requires Occurs(text, keyword, i) && Apart(text, keyword, rest) && (rest != [] ==> i + |keyword| <= rest[0])
    ensures Apart(text, keyword, [i] + rest)
  {
    hide Occurs;
    var all := [i] + rest;
    forall k, l | 0 <= k < l < |all|
      ensures all[k] + |keyword| <= all[l]
    {
      assert all[l] == rest[l - 1];
      assert k > 0 ==> all[k] == rest[k - 1];
    }
  }

  lemma {:induction false} GreedyIsApart(text: string, keyword: string, start: nat)
    requires keyword != []
    ensures Apart(text, keyword, Greedy(text, keyword, start))
    ensures Greedy(text, keyword, start) != [] ==> start <= Greedy(text, keyword, start)[0]
    decreases |text| - start
  {
    if Greedy(text, keyword, start) != [] {
      GreedyStep(text, keyword, start);
      hide Greedy, Find, Occurs, Apart;
      var i := Find(text, keyword, start).value;
      GreedyIsApart(text, keyword, i + |keyword|);
      ApartCons(text, keyword, i, Greedy(text, keyword, i + |keyword|));
    } else {
      assert Apart(text, keyword, []);
    }
  }

  /** An occurrence is never later than the first one found. */
  lemma FirstIsFirst(text: string, keyword: string, start: nat, i: nat)
    requires keyword != [] && start <= i && Occurs(text, keyword, i)
    ensures Greedy(text, keyword, start) != [] && start < |text|
    ensures Find(text, keyword, start).Some? && Find(text, keyword, start).value <= i
  {
    assert Find(text, keyword, start).Some? && Find(text, keyword, start).value <= i by { hide Greedy; }
  }

  lemma ApartTail(text: string, keyword: string, positions: seq<nat>)
    requires Apart(text, keyword, positions) && positions != []
    ensures Occurs(text, keyword, positions[0]) && Apart(text, keyword, positions[1..])
    ensures |positions| > 1 ==> positions[0] + |keyword| <= positions[1]
  {
    hide Occurs;
  }

  lemma {:induction false} GreedyIsMost(text: string, keyword: string, start: nat, positions: seq<nat>)
    requires keyword != [] && Apart(text, keyword, positions)
    requires positions != [] ==> start <= positions[0]
    ensures |positions| <= |Greedy(text, keyword, start)|
    decreases |positions|
  {
    hide Apart, Greedy, Find, Occurs;
    if positions != [] {
      ApartTail(text, keyword, positions);
      FirstIsFirst(text, keyword, start, positions[0]);
      GreedyStep(text, keyword, start);
      GreedyIsMost(text, keyword, Find(text, keyword, start).value + |keyword|, positions[1..]);
    }
  }

  lemma {:induction false} EmptyKeyword(text: string, start: nat)
    requires start <= |text|
    ensures |Greedy(text, [], start)| == |text| - start
    decreases |text| - start
  {
    if start < |text| {
      assert Occurs(text, [], start) && Find(text, [], start) == Some(start);
      EmptyKeyword(text, start + 1);
    }
  }

  // ----- snippets

  /** `" ".join(s.split())`: runs of white space become one blank, none at the ends. */
  function Squash(s: string): string {
    if s == [] then []
    else
      var rest := Squash(s[1..]);
      if IsSpace(s[0]) then rest
      else if rest == [] then [s[0]]
      else if IsSpace(s[1]) then [s[0]] + ([' '] + rest)
      else [s[0]] + rest
  }

  /** The characters that are not white space, in order. */
  function Solid(s: string): string {
    if s == [] then [] else (if IsSpace(s[0]) then [] else [s[0]]) + Solid(s[1..])
  }

  /** White space only as single blanks between other characters. */
  ghost predicate Tidy(s: string) {
    && (forall i | 0 <= i < |s| && IsSpace(s[i]) :: s[i] == ' ' && 0 < i < |s| - 1 && !IsSpace(s[i - 1]) && !IsSpace(s[i + 1]))
  }

  /** For each character but the last of the solid ones: whether white space follows it. */
  function Gaps(s: string): seq<bool> {
    if s == [] then []
    else if IsSpace(s[0]) || Solid(s[1..]) == [] then Gaps(s[1..])
    else [IsSpace(s[1])] + Gaps(s[1..])
  }

  lemma {:induction false} Cons(c: char, rest: string)
    ensures Solid([c] + rest) == (if IsSpace(c) then [] else [c]) + Solid(rest)
    ensures Gaps([c] + rest) == if IsSpace(c) || Solid(rest) == [] then Gaps(rest) else [IsSpace(rest[0])] + Gaps(rest)
  {
    assert ([c] + rest)[1..] == rest;
  }

  lemma {:induction false} SolidStart(s: string)
    requires s != [] && !IsSpace(s[0])
    ensures Solid(s) != []
  {
  }

  /** A character right before a text that starts solid. */
  lemma {:induction false} Joined(c: char, rest: string)
    requires !IsSpace(c) && rest != [] && !IsSpace(rest[0])
    ensures Solid([c] + rest) == [c] + Solid(rest) && Gaps([c] + rest) == [false] + Gaps(rest)
  {
    hide Solid, Gaps;
    SolidStart(rest);
    Cons(c, rest);
  }

  /** And with a blank between. */
  lemma {:induction false} Spaced(c: char, rest: string)
    requires !IsSpace(c) && rest != [] && !IsSpace(rest[0])
    ensures Solid([c] + ([' '] + rest)) == [c] + Solid(rest) && Gaps([c] + ([' '] + rest)) == [true] + Gaps(rest)
  {
    hide Solid, Gaps;
    SolidStart(rest);
    Cons(' ', rest);
    Cons(c, [' '] + rest);
  }

  lemma {:induction false} TidyCons(c: char, rest: string)
    requires !IsSpace(c) && Tidy(rest) && (rest != [] ==> !IsSpace(rest[0]))
    ensures Tidy([c] + rest) && (rest != [] ==> Tidy([c] + ([' '] + rest)))
  {
    hide IsSpace;
  }

  /**
   Squashing keeps every other character in order, leaves white space only as single blanks
   between two of them, and leaves one exactly where there was some.
   */
  lemma {:induction false} SquashTidies(s: string)
    ensures Tidy(Squash(s)) && Solid(Squash(s)) == Solid(s) && Gaps(Squash(s)) == Gaps(s)
    ensures Squash(s) != [] ==> !IsSpace(Squash(s)[0])
    ensures s != [] && !IsSpace(s[0]) ==> Squash(s) != [] && Squash(s)[0] == s[0]
    decreases |s|
  {
    if s != [] {
      var c, rest := s[0], Squash(s[1..]);
      SquashTidies(s[1..]);
      Cons(c, s[1..]);
      assert s == [c] + s[1..];
      hide Tidy, Solid, Gaps;
      if !IsSpace(c) {
        TidyCons(c, rest);
        if rest != [] {
          Joined(c, rest);
          Spaced(c, rest);
          SolidStart(rest);
        } else {
          OneCharacter(c);
        }
      }
    }
  }

  lemma OneCharacter(c: char)
    requires !IsSpace(c)
    ensures Solid([c]) == [c] && Gaps([c]) == [] && Solid([]) == [] && Gaps([]) == []
  {
    Cons(c, []);
    assert [c] + [] == [c];
  }

  function Slice(s: string, begin: nat, end: nat): string {
    var e := if end < |s| then end else |s|;
    if begin <= e then s[begin..e] else []
  }

  function SnippetAt(text: string, keyword: string, i: nat): string {
    Squash(Slice(text, if i > SNIPPET_CONTEXT then i - SNIPPET_CONTEXT else 0, i + |keyword| + SNIPPET_CONTEXT))
  }

  function Snippets(text: string, keyword: string, positions: seq<nat>): seq<string> {
    if positions == [] then []
    else
      var snippet := SnippetAt(text, keyword, positions[0]);
      (if snippet != [] then [snippet] else []) + Snippets(text, keyword, positions[1..])
  }

  function Firsts(positions: seq<nat>): seq<nat> { if |positions| > MAX_SNIPPETS then positions[..MAX_SNIPPETS] else positions }

  /** The search loop of `find_snippets`. */
  method FindPositions(lowered: string, keyword: string) returns (positions: seq<nat>)
    ensures positions == Greedy(lowered, keyword, 0)
  {
    hide Occurs, Find;
    positions := [];
    var start := 0;
    while start < |lowered|
      invariant positions + Greedy(lowered, keyword, start) == Greedy(lowered, keyword, 0)
      decreases |lowered| - start
    {
      var found := Find(lowered, keyword, start);
      if found.None? {
        assert positions + [] == positions;
        return;
      }
      var i := found.value;
      ghost var was, rest := positions, Greedy(lowered, keyword, i + Width(keyword));
      assert Greedy(lowered, keyword, start) == [i] + rest;
      positions := positions + [i];
      assert was + ([i] + rest) == positions + rest;
      start := i + Width(keyword);
    }
    assert positions + [] == positions;
  }

  /** The snippet loop of `find_snippets`; empty snippets are left out. */
  method CollectSnippets(text: string, keyword: string, positions: seq<nat>) returns (snippets: seq<string>)
    ensures snippets == Snippets(text, keyword, positions) && |snippets| <= |positions|
  {
    hide SnippetAt;
    snippets := [];
    for i := 0 to |positions|
      invariant |snippets| <= i && snippets + Snippets(text, keyword, positions[i..]) == Snippets(text, keyword, positions)
    {
      assert positions[i..][1..] == positions[i + 1..];
      var snippet := SnippetAt(text, keyword, positions[i]);
      ghost var rest := Snippets(text, keyword, positions[i + 1..]);
      assert snippets + ([snippet] + rest) == snippets + [snippet] + rest;
      assert snippets + ([] + rest) == snippets + rest;
      if snippet != [] { snippets := snippets + [snippet]; }
    }
  }

  /** `find_snippets`; `lowered` is the text in lower case, which may differ in length. */
  method FindSnippets(text: string, lowered: string, keyword: string) returns (snippets: seq<string>, hits: nat)
    ensures hits == |Greedy(lowered, keyword, 0)|
    ensures snippets == Snippets(text, keyword, Firsts(Greedy(lowered, keyword, 0))) && |snippets| <= MAX_SNIPPETS
    ensures keyword != [] ==> exists best :: Apart(lowered, keyword, best) && |best| == hits
    ensures keyword != [] ==> forall other :: Apart(lowered, keyword, other) ==> |other| <= hits
  {
    hide Greedy, Snippets, Apart;
    var positions := FindPositions(lowered, keyword);
    snippets := CollectSnippets(text, keyword, Firsts(positions));
    hits := |positions|;
    MostApart(lowered, keyword);
  }

  /** The hit count of a non-empty keyword is the largest number of occurrences that do not overlap. */
  lemma {:induction false} MostApart(text: string, keyword: string)
    ensures keyword != [] ==> exists best :: Apart(text, keyword, best) && |best| == |Greedy(text, keyword, 0)|
    ensures keyword != [] ==> forall other :: Apart(text, keyword, other) ==> |other| <= |Greedy(text, keyword, 0)|
    ensures keyword == [] ==> |Greedy(text, keyword, 0)| == |text|
  {
    if keyword != [] {
      GreedyIsApart(text, keyword, 0);
      forall other | Apart(text, keyword, other)
        ensures |other| <= |Greedy(text, keyword, 0)|
      {
        GreedyIsMost(text, keyword, 0, other);
      }
    } else {
      EmptyKeyword(text, 0);
    }
  }

  // ----- what a snippet shows

  /** The text from 60 characters before to 60 characters after a hit of this length, as far as there is text. */
  function Stretch(text: string, hit: nat, length: nat): string {
    var begin := if hit < 60 then 0 else hit - 60;
    var end := if hit + length + 60 < |text| then hit + length + 60 else |text|;
    if begin <= end then text[begin..end] else ""
  }

  /** One snippet, or none when there is nothing but white space to show. */
  function Shown(stretch: string): seq<string> {
    if Squash(stretch) == "" then [] else [Squash(stretch)]
  }

  /** `hit` is the first occurrence from `start` on. */
  ghost predicate FirstFrom(text: string, keyword: string, start: nat, hit: nat) {
    start <= hit && Occurs(text, keyword, hit) && forall j | start <= j < hit :: !Occurs(text, keyword, j)
  }

  lemma {:induction false} SnippetIsShown(text: string, keyword: string, positions: seq<nat>)
    requires positions != []
    ensures Snippets(text, keyword, positions) == Shown(Stretch(text, positions[0], |keyword|)) + Snippets(text, keyword, positions[1..])
  {
    hide Squash;
    assert SnippetAt(text, keyword, positions[0]) == Squash(Stretch(text, positions[0], |keyword|));
  }

  lemma {:induction false} FirstHits(text: string, keyword: string)
    requires keyword != []
    ensures var hits := Greedy(text, keyword, 0);
            && (hits == [] <==> forall j :: !Occurs(text, keyword, j))
            && (hits != [] ==> FirstFrom(text, keyword, 0, hits[0]))
            && (|hits| > 1 ==> FirstFrom(text, keyword, hits[0] + |keyword|, hits[1]))
            && (|hits| == 1 ==> forall j | hits[0] + |keyword| <= j :: !Occurs(text, keyword, j))
  {
    hide Greedy;
    HitsFrom(text, keyword, 0);
    var hits := Greedy(text, keyword, 0);
    if hits != [] {
      GreedyStep(text, keyword, 0);
      HitsFrom(text, keyword, hits[0] + |keyword|);
      assert hits[1..] == Greedy(text, keyword, hits[0] + |keyword|);
    }
  }

  lemma {:induction false} HitsFrom(text: string, keyword: string, start: nat)
    requires keyword != []
    ensures var hits := Greedy(text, keyword, start);
            && (hits == [] ==> forall j: nat | start <= j :: !Occurs(text, keyword, j))
            && (hits != [] ==> FirstFrom(text, keyword, start, hits[0]))
  {
    hide Greedy;
    if Greedy(text, keyword, start) != [] {
      GreedyStep(text, keyword, start);
    } else {
      forall j: nat | start <= j
        ensures !Occurs(text, keyword, j)
      {
        if Occurs(text, keyword, j) { FirstIsFirst(text, keyword, start, j); }
      }
    }
  }

  /**
   The snippets are those of the first hit and of the first one after it, each the tidied stretch from
   60 characters before to 60 after, in this order; blank stretches are left out.
   */
  lemma {:induction false} SnippetsShowTheFirstHits(text: string, lowered: string, keyword: string)
    requires keyword != []
    ensures var hits := Greedy(lowered, keyword, 0);
            && Snippets(text, keyword, Firsts(hits))
               == (if |hits| > 0 then Shown(Stretch(text, hits[0], |keyword|)) else [])
                  + (if |hits| > 1 then Shown(Stretch(text, hits[1], |keyword|)) else [])
            && (hits == [] <==> forall j :: !Occurs(lowered, keyword, j))
            && (hits != [] ==> FirstFrom(lowered, keyword, 0, hits[0]))
            && (|hits| > 1 ==> FirstFrom(lowered, keyword, hits[0] + |keyword|, hits[1]))
  {
    FirstHits(lowered, keyword);
    var hits := Greedy(lowered, keyword, 0);
    hide Greedy, Shown, FirstFrom, Stretch;
    var firsts := Firsts(hits);
    assert Snippets(text, keyword, []) == [];
    if |hits| > 0 {
      SnippetIsShown(text, keyword, firsts);
      if |hits| > 1 {
        assert firsts[1..][0] == hits[1] && firsts[1..][1..] == [];
        SnippetIsShown(text, keyword, firsts[1..]);
      } else {
        assert firsts[1..] == [];
      }
    }
  }

  /** Tidying two texts at once differs from tidying each in what stands between them. */
  lemma {:induction false} SquashOfBoth(s: string, t: string) returns (glue: string)
    ensures Squash(s + t) == Squash(s) + glue + Squash(t)
    decreases |s|
  {
    hide Squash;
    if s == [] {
      assert s + t == t;
      SquashOfNone();
      glue := [];
    } else {
      var c, rest := s[0], s[1..];
      assert s + t == [c] + (rest + t) && s == [c] + rest;
      var inner := SquashOfBoth(rest, t);
      SquashCons(c, rest + t);
      SquashCons(c, rest);
      glue := SquashGlue(c, rest, t, inner);
    }
  }

  lemma SquashOfNone()
    ensures Squash([]) == []
  {
  }

  lemma {:induction false} SquashCons(c: char, rest: string)
    ensures Squash([c] + rest)
            == if IsSpace(c) then Squash(rest) else if Squash(rest) == [] then [c]
               else [c] + (if IsSpace(rest[0]) then [' '] else []) + Squash(rest)
  {
    assert ([c] + rest)[1..] == rest;
  }

  lemma {:induction false} SquashGlue(c: char, rest: string, t: string, inner: string) returns (glue: string)
    requires Squash(rest + t) == Squash(rest) + inner + Squash(t)
    ensures Squash([c] + (rest + t)) == Squash([c] + rest) + glue + Squash(t)
  {
    SquashCons(c, rest + t);
    SquashCons(c, rest);
    SquashOfNone();
    hide Squash, IsSpace;
    var own, both := Squash(rest), Squash(rest + t);
    if IsSpace(c) || both == [] {
      glue := inner;
    } else if own == [] {
      glue := (if IsSpace((rest + t)[0]) then [' '] else []) + inner;
    } else {
      assert (rest + t)[0] == rest[0];
      glue := inner;
    }
  }

  /** `part` stands somewhere in `s`. */
  ghost predicate Holds(s: string, part: string) { exists k :: Occurs(s, part, k) }

  lemma {:induction false} SquashHoldsParts(a: string, b: string, c: string)
    ensures Holds(Squash(a + b + c), Squash(b))
  {
    var g := SquashOfBoth(a + b, c);
    var h := SquashOfBoth(a, b);
    hide Squash;
    var k := |Squash(a) + h|;
    assert Squash(a + b + c)[k..k + |Squash(b)|] == Squash(b);
    assert Occurs(Squash(a + b + c), Squash(b), k);
  }

  /**
   When lower-casing keeps the length, the stretch of every hit holds the characters found, so its snippet
   shows them.
   */
  lemma {:induction false} SnippetHoldsItsHit(text: string, lowered: string, keyword: string, hit: nat)
    requires |lowered| == |text| && Occurs(lowered, keyword, hit)
    ensures hit + |keyword| <= |text|
    ensures Holds(Squash(Stretch(text, hit, |keyword|)), Squash(text[hit..hit + |keyword|]))
  {
    var begin := if hit < 60 then 0 else hit - 60;
    var end := if hit + |keyword| + 60 < |text| then hit + |keyword| + 60 else |text|;
    var a, b, c := text[begin..hit], text[hit..hit + |keyword|], text[hit + |keyword|..end];
    assert Stretch(text, hit, |keyword|) == a + b + c;
    SquashHoldsParts(a, b, c);
  }

  // ----- names in code point order

  predicate NotAfter(a: string, b: string) {
    if a == [] then true
    else if b == [] then false
    else if a[0] != b[0] then a[0] < b[0]
    else NotAfter(a[1..], b[1..])
  }

  lemma {:induction false} NotAfterIsReflexive(a: string)
    ensures NotAfter(a, a)
  {
    if a != [] { NotAfterIsReflexive(a[1..]); }
  }

  lemma {:induction false} NotAfterIsTotal(a: string, b: string)
    ensures NotAfter(a, b) || NotAfter(b, a)
  {
    if a != [] && b != [] && a[0] == b[0] { NotAfterIsTotal(a[1..], b[1..]); }
  }

  lemma {:induction false} NotAfterIsAntisymmetric(a: string, b: string)
    requires NotAfter(a, b) && NotAfter(b, a)
    ensures a == b
  {
    if a != [] && b != [] {
      NotAfterIsAntisymmetric(a[1..], b[1..]);
      assert a == [a[0]] + a[1..] && b == [b[0]] + b[1..];
    }
  }

  lemma {:induction false} NotAfterIsTransitive(a: string, b: string, c: string)
    requires NotAfter(a, b) && NotAfter(b, c)
    ensures NotAfter(a, c)
  {
    if a != [] && b != [] && c != [] && a[0] == b[0] == c[0] { NotAfterIsTransitive(a[1..], b[1..], c[1..]); }
  }

  // ----- the listing and its pages

  datatype Document = Document(name: string, title: string, text: string)

  datatype Meta = Meta(title: string, name: string)

  /** Empty documents and those with a key in plain text are not listed. */
  predicate Listable(d: Document) { d.text != [] && Find(d.text, "sk-", 0).None? }

  /** The listable documents whose name comes after the cursor. */
  function Listed(docs: seq<Document>, cursor: Option<string>): seq<Meta> {
    if docs == [] then []
    else
      var d := docs[0];
      (if Listable(d) && (cursor.None? || !NotAfter(d.name, cursor.value)) then [Meta(d.title, d.name)] else []) + Listed(docs[1..], cursor)
  }

  /** Listing from position `i` on: the document there, when it is listed, and the rest. */
  lemma ListedAt(docs: seq<Document>, cursor: Option<string>, i: nat, items: seq<Meta>)
    requires i < |docs|
    ensures var d, rest := docs[i], Listed(docs[i + 1..], cursor);
            items + Listed(docs[i..], cursor)
            == (if Listable(d) && (cursor.None? || !NotAfter(d.name, cursor.value)) then items + [Meta(d.title, d.name)] else items) + rest
  {
    hide NotAfter, Listable;
    assert docs[i..][0] == docs[i] && docs[i..][1..] == docs[i + 1..];
    var d, rest := docs[i], Listed(docs[i + 1..], cursor);
    assert items + ([Meta(d.title, d.name)] + rest) == items + [Meta(d.title, d.name)] + rest;
    assert [] + rest == rest;
  }

  /** `a` comes after `b` in code point order: where they first differ it is longer or has the greater character. */
  ghost predicate ComesAfter(a: string, b: string) {
    exists k: nat :: k < |a| && k <= |b| && a[..k] == b[..k] && (k == |b| || b[k] < a[k])
  }

  lemma {:induction false} SameStart(a: string, b: string, k: nat)
    requires k <= |a| && k <= |b| && a[..k] == b[..k]
    ensures k > 0 ==> a[0] == b[0]
  {
    if k > 0 { assert a[0] == a[..k][0] == b[..k][0] == b[0]; }
  }

  lemma {:induction false} AfterIsLexicographic(a: string, b: string)
    ensures !NotAfter(a, b) <==> ComesAfter(a, b)
    decreases |a|
  {
    if a != [] && b != [] && a[0] == b[0] {
      AfterIsLexicographic(a[1..], b[1..]);
      if ComesAfter(a[1..], b[1..]) {
        var k: nat :| k < |a[1..]| && k <= |b[1..]| && a[1..][..k] == b[1..][..k] && (k == |b[1..]| || b[1..][k] < a[1..][k]);
        assert a[..k + 1] == [a[0]] + a[1..][..k] && b[..k + 1] == [b[0]] + b[1..][..k];
        assert a[..k + 1] == b[..k + 1];
      }
      if ComesAfter(a, b) {
        var k: nat :| k < |a| && k <= |b| && a[..k] == b[..k] && (k == |b| || b[k] < a[k]);
        assert a[1..][..k - 1] == a[..k][1..] && b[1..][..k - 1] == b[..k][1..];
      }
    } else if a != [] {
      assert a[..0] == b[..0];
      if b != [] && ComesAfter(a, b) {
        var k: nat :| k < |a| && k <= |b| && a[..k] == b[..k] && (k == |b| || b[k] < a[k]);
        SameStart(a, b, k);
      }
    }
  }

  /** A document is shown when it has text, no key in plain text, and a name after the cursor. */
  ghost predicate OnTheList(d: Document, cursor: Option<string>) {
    d.text != "" && (forall k :: !Occurs(d.text, "sk-", k)) && (cursor.Some? ==> ComesAfter(d.name, cursor.value))
  }

  lemma {:induction false} OnTheListIsListed(d: Document, cursor: Option<string>)
    ensures OnTheList(d, cursor) <==> Listable(d) && (cursor.None? || !NotAfter(d.name, cursor.value))
  {
    if cursor.Some? { AfterIsLexicographic(d.name, cursor.value); }
    hide NotAfter, ComesAfter, Occurs;
  }

  ghost predicate Increasing(picks: seq<nat>) { forall m, n | 0 <= m < n < |picks| :: picks[m] < picks[n] }

  ghost predicate PicksListed(docs: seq<Document>, cursor: Option<string>, picks: seq<nat>) {
    forall n | 0 <= n < |picks| :: picks[n] < |docs| && OnTheList(docs[picks[n]], cursor)
  }

  ghost predicate PicksAll(docs: seq<Document>, cursor: Option<string>, picks: seq<nat>) {
    forall i: nat | i < |docs| && OnTheList(docs[i], cursor) :: i in picks
  }

  /** `picks` are the places, in order, of the documents that are on the list. */
  ghost predicate Picked(docs: seq<Document>, cursor: Option<string>, picks: seq<nat>) {
    Increasing(picks) && PicksListed(docs, cursor, picks) && PicksAll(docs, cursor, picks)
  }

  /** The items are those documents, each with its title and name. */
  ghost predicate Shows(docs: seq<Document>, items: seq<Meta>, picks: seq<nat>) {
    && |items| == |picks|
    && forall n | 0 <= n < |picks| :: picks[n] < |docs| && items[n] == Meta(docs[picks[n]].title, docs[picks[n]].name)
  }

  function Later(places: seq<nat>): seq<nat> { seq(|places|, n requires 0 <= n < |places| => places[n] + 1) }

  lemma {:induction false} LaterHolds(places: seq<nat>, i: nat)
    requires i in places
    ensures i + 1 in Later(places)
  {
    var n :| 0 <= n < |places| && places[n] == i;
    assert Later(places)[n] == i + 1;
  }

  lemma {:induction false} LaterIncreases(rest: seq<nat>)
    requires Increasing(rest)
    ensures Increasing(Later(rest)) && Increasing([0] + Later(rest))
  {
    var picks := [0] + Later(rest);
    forall m, n | 0 <= m < n < |picks| ensures picks[m] < picks[n] {
      assert picks[n] == rest[n - 1] + 1 && (m > 0 ==> picks[m] == rest[m - 1] + 1);
    }
  }

  lemma {:induction false} LaterIsListed(docs: seq<Document>, cursor: Option<string>, rest: seq<nat>)
    requires docs != [] && PicksListed(docs[1..], cursor, rest)
    ensures PicksListed(docs, cursor, Later(rest))
  {
    hide OnTheList;
    forall n | 0 <= n < |rest| ensures OnTheList(docs[Later(rest)[n]], cursor) { assert docs[1..][rest[n]] == docs[rest[n] + 1]; }
  }

  lemma {:induction false} FirstIsListed(docs: seq<Document>, cursor: Option<string>, later: seq<nat>)
    requires docs != [] && PicksListed(docs, cursor, later) && OnTheList(docs[0], cursor)
    ensures PicksListed(docs, cursor, [0] + later)
  {
    hide OnTheList;
    var picks := [0] + later;
    forall n | 0 <= n < |picks| ensures picks[n] < |docs| && OnTheList(docs[picks[n]], cursor) {
      if n > 0 { assert picks[n] == later[n - 1]; }
    }
  }

  lemma {:induction false} LaterIsAll(docs: seq<Document>, cursor: Option<string>, rest: seq<nat>)
    requires docs != [] && PicksAll(docs[1..], cursor, rest)
    ensures forall i: nat | 0 < i < |docs| && OnTheList(docs[i], cursor) :: i in Later(rest)
  {
    hide OnTheList;
    forall i: nat | 0 < i < |docs| && OnTheList(docs[i], cursor)
      ensures i in Later(rest)
    {
      assert docs[1..][i - 1] == docs[i];
      LaterHolds(rest, i - 1);
    }
  }

  lemma {:induction false} PickedLater(docs: seq<Document>, cursor: Option<string>, rest: seq<nat>)
    requires docs != [] && Picked(docs[1..], cursor, rest)
    ensures Picked(docs, cursor, if OnTheList(docs[0], cursor) then [0] + Later(rest) else Later(rest))
  {
    hide OnTheList, Later;
    LaterIncreases(rest);
    LaterIsListed(docs, cursor, rest);
    LaterIsAll(docs, cursor, rest);
    hide PicksListed, Increasing;
    if OnTheList(docs[0], cursor) { FirstIsListed(docs, cursor, Later(rest)); }
  }

  lemma {:induction false} ShowsLater(docs: seq<Document>, items: seq<Meta>, rest: seq<nat>)
    requires docs != [] && Shows(docs[1..], items, rest)
    ensures Shows(docs, items, Later(rest)) && Shows(docs, [Meta(docs[0].title, docs[0].name)] + items, [0] + Later(rest))
  {
    assert forall n | 0 <= n < |rest| :: docs[1..][rest[n]] == docs[rest[n] + 1];
  }

  /** The listing shows exactly the documents that are on the list, in the order of the directory. */
  lemma {:induction false} ListingIsComplete(docs: seq<Document>, cursor: Option<string>)
    ensures exists picks :: Picked(docs, cursor, picks) && Shows(docs, Listed(docs, cursor), picks)
    decreases |docs|
  {
    hide Listable, NotAfter, OnTheList, Picked, Shows;
    if docs == [] {
      NothingPicked(cursor);
    } else {
      ListingIsComplete(docs[1..], cursor);
      var rest :| Picked(docs[1..], cursor, rest) && Shows(docs[1..], Listed(docs[1..], cursor), rest);
      OnTheListIsListed(docs[0], cursor);
      ShowsLater(docs, Listed(docs[1..], cursor), rest);
      PickedLater(docs, cursor, rest);
      if OnTheList(docs[0], cursor) {
        assert Picked(docs, cursor, [0] + Later(rest)) && Shows(docs, Listed(docs, cursor), [0] + Later(rest));
      } else {
        assert [] + Listed(docs[1..], cursor) == Listed(docs[1..], cursor);
        assert Picked(docs, cursor, Later(rest)) && Shows(docs, Listed(docs, cursor), Later(rest));
      }
    }
  }

  lemma NothingPicked(cursor: Option<string>)
    ensures Picked([], cursor, []) && Shows([], Listed([], cursor), [])
  {
  }

  /** `list_documents` on the collected candidates. */
  method ListDocuments(docs: seq<Document>) returns (items: seq<Meta>)
    ensures items == Listed(docs, None)
  {
    hide Listable, NotAfter;
    items := [];
    assert docs[0..] == docs && items + Listed(docs, None) == Listed(docs, None);
    for i := 0 to |docs|
      invariant items + Listed(docs[i..], None) == Listed(docs, None)
    {
      hide Listed;
      ListedAt(docs, None, i, items);
      if Listable(docs[i]) { items := items + [Meta(docs[i].title, docs[i].name)]; }
    }
    assert docs[|docs|..] == [] && items + [] == items;
  }

  function PageSize(limit: int): nat { if limit > 1 then limit else 1 }

  function PageOf(left: seq<Meta>, limit: int): (seq<Meta>, Option<string>) {
    var size := PageSize(limit);
    if |left| < size then (left, None) else (left[..size], Some(left[size - 1].name))
  }

  /** `list_documents_page` */
  method ListDocumentsPage(docs: seq<Document>, cursor: Option<string>, limit: int) returns (items: seq<Meta>, next: Option<string>)
    ensures (items, next) == PageOf(Listed(docs, cursor), limit)
    ensures var all, size := Listed(docs, cursor), if limit > 1 then limit else 1;
            if |all| < size then items == all && next == None else items == all[..size] && next == Some(items[size - 1].name)
  {
    hide NotAfter, Listable;
    var size := PageSize(limit);
    items, next := [], None;
    ghost var all := Listed(docs, cursor);
    assert docs[0..] == docs && items + all == all;
    for i := 0 to |docs|
      invariant |items| < size && items + Listed(docs[i..], cursor) == all
    {
      hide Listed;
      ListedAt(docs, cursor, i, items);
      if (cursor.None? || !NotAfter(docs[i].name, cursor.value)) && Listable(docs[i]) {
        var meta := Meta(docs[i].title, docs[i].name);
        items := items + [meta];
        if |items| >= size {
          assert all[..size] == items && all[size - 1] == meta;
          return items, Some(meta.name);
        }
      }
    }
    assert docs[|docs|..] == [] && items + [] == items;
  }

  // ----- chaining pages

  lemma {:induction false} LaterCursorListsFewer(docs: seq<Document>, cursor: Option<string>, later: string)
    requires cursor.Some? ==> NotAfter(cursor.value, later)
    ensures |Listed(docs, Some(later))| <= |Listed(docs, cursor)|
    ensures (exists i :: 0 <= i < |Listed(docs, cursor)| && Listed(docs, cursor)[i].name == later) ==>
              |Listed(docs, Some(later))| < |Listed(docs, cursor)|
  {
    if docs != [] {
      LaterCursorListsFewer(docs[1..], cursor, later);
      NotAfterIsReflexive(later);
      var d, rest := docs[0], Listed(docs[1..], cursor);
      if cursor.Some? && !NotAfter(d.name, later) && NotAfter(d.name, cursor.value) {
        NotAfterIsTransitive(d.name, cursor.value, later);
      }
      var own := Listed(docs, cursor);
      assert own == rest || own == [Meta(d.title, d.name)] + rest;
      forall i | 0 <= i < |own| && own[i].name == later
        ensures d.name == later || exists j :: 0 <= j < |rest| && rest[j].name == later
      {
        if own != rest && i > 0 { assert rest[i - 1].name == later; }
        if own == rest { assert rest[i].name == later; }
      }
    }
  }

  lemma {:induction false} ListedAreAfter(docs: seq<Document>, cursor: Option<string>, i: nat)
    requires i < |Listed(docs, cursor)|
    ensures cursor.Some? ==> !NotAfter(Listed(docs, cursor)[i].name, cursor.value)
    decreases |docs|
  {
    if docs != [] {
      var rest := Listed(docs[1..], cursor);
      if |Listed(docs, cursor)| == |rest| {
        ListedAreAfter(docs[1..], cursor, i);
      } else if i > 0 {
        ListedAreAfter(docs[1..], cursor, i - 1);
      }
    }
  }

  lemma {:induction false} PageAdvances(docs: seq<Document>, cursor: Option<string>, limit: int)
    requires PageOf(Listed(docs, cursor), limit).1.Some?
    ensures |Listed(docs, PageOf(Listed(docs, cursor), limit).1)| < |Listed(docs, cursor)|
  {
    var left := Listed(docs, cursor);
    var i := PageSize(limit) - 1;
    ListedAreAfter(docs, cursor, i);
    if cursor.Some? { NotAfterIsTotal(left[i].name, cursor.value); }
    LaterCursorListsFewer(docs, cursor, left[i].name);
  }

  /** Page after page, each from the cursor the previous one returned. */
  function Chained(docs: seq<Document>, cursor: Option<string>, limit: int): seq<Meta>
    decreases |Listed(docs, cursor)|
  {
    var page := PageOf(Listed(docs, cursor), limit);
    if page.1.None? then page.0
    else
      PageAdvances(docs, cursor, limit);
      page.0 + Chained(docs, page.1, limit)
  }

  /** The candidates come sorted by name. */
  ghost predicate Sorted(docs: seq<Document>) { forall i, j | 0 <= i < j < |docs| :: NotAfter(docs[i].name, docs[j].name) }

  ghost predicate DistinctNames(items: seq<Meta>) { forall i, j | 0 <= i < j < |items| :: items[i].name != items[j].name }

  lemma {:induction false} ListedIsFromDocs(docs: seq<Document>, cursor: Option<string>, i: nat)
    requires i < |Listed(docs, cursor)|
    ensures exists j :: 0 <= j < |docs| && docs[j].name == Listed(docs, cursor)[i].name
    decreases |docs|
  {
    var rest := Listed(docs[1..], cursor);
    if |Listed(docs, cursor)| == |rest| || i > 0 {
      var k := if |Listed(docs, cursor)| == |rest| then i else i - 1;
      ListedIsFromDocs(docs[1..], cursor, k);
      var j :| 0 <= j < |docs[1..]| && docs[1..][j].name == rest[k].name;
      assert docs[j + 1].name == rest[k].name;
    } else {
      assert docs[0].name == Listed(docs, cursor)[i].name;
    }
  }

  lemma {:induction false} ListedUnfolds(docs: seq<Document>, cursor: Option<string>)
    requires docs != []
    ensures var d, rest := docs[0], Listed(docs[1..], cursor);
            Listed(docs, cursor)
            == if Listable(d) && (cursor.None? || !NotAfter(d.name, cursor.value)) then [Meta(d.title, d.name)] + rest else rest
  {
    hide NotAfter, Listable;
    assert [] + Listed(docs[1..], cursor) == Listed(docs[1..], cursor);
  }

  lemma ListedOfNone(cursor: Option<string>)
    ensures Listed([], cursor) == []
  {
  }

  /** When all listed names come after a later cursor already, it drops nothing. */
  lemma {:induction false} NothingDropped(docs: seq<Document>, cursor: Option<string>, later: string)
    requires cursor.Some? ==> NotAfter(cursor.value, later)
    requires forall i | 0 <= i < |Listed(docs, cursor)| :: !NotAfter(Listed(docs, cursor)[i].name, later)
    ensures Listed(docs, Some(later)) == Listed(docs, cursor)
  {
    hide Listed, Listable, NotAfter;
    if docs == [] {
      ListedOfNone(cursor);
      ListedOfNone(Some(later));
    } else {
      var d, all, rest := docs[0], Listed(docs, cursor), Listed(docs[1..], cursor);
      ListedUnfolds(docs, cursor);
      ListedUnfolds(docs, Some(later));
      forall i | 0 <= i < |rest|
        ensures !NotAfter(rest[i].name, later)
      {
        assert rest[i] == all[i + |all| - |rest|];
      }
      NothingDropped(docs[1..], cursor, later);
      if |all| > |rest| {
        assert all[0].name == d.name;
      } else if cursor.Some? && NotAfter(d.name, cursor.value) {
        NotAfterIsTransitive(d.name, cursor.value, later);
      }
    }
  }

  lemma {:induction false} ListedStep(docs: seq<Document>, cursor: Option<string>)
    requires docs != []
    ensures var d, all, rest := docs[0], Listed(docs, cursor), Listed(docs[1..], cursor);
            all == rest || (all == [Meta(d.title, d.name)] + rest && (cursor.Some? ==> !NotAfter(d.name, cursor.value)))
  {
  }

  /** In a sorted directory no listed name comes before the first document's. */
  lemma {:induction false} ListedFromFirst(docs: seq<Document>, cursor: Option<string>, k: nat)
    requires Sorted(docs) && docs != [] && k < |Listed(docs[1..], cursor)|
    ensures NotAfter(docs[0].name, Listed(docs[1..], cursor)[k].name)
  {
    ListedIsFromDocs(docs[1..], cursor, k);
    var j :| 0 <= j < |docs[1..]| && docs[1..][j].name == Listed(docs[1..], cursor)[k].name;
    assert NotAfter(docs[0].name, docs[j + 1].name);
  }

  lemma {:induction false} FirstItemListed(docs: seq<Document>, cursor: Option<string>)
    requires Sorted(docs) && docs != [] && DistinctNames(Listed(docs, cursor))
    requires Listed(docs, cursor) == [Meta(docs[0].title, docs[0].name)] + Listed(docs[1..], cursor)
    requires cursor.Some? ==> NotAfter(cursor.value, docs[0].name)
    ensures Listed(docs, Some(docs[0].name)) == Listed(docs[1..], cursor)
  {
    var all, rest, name := Listed(docs, cursor), Listed(docs[1..], cursor), docs[0].name;
    NotAfterIsReflexive(name);
    forall k | 0 <= k < |rest|
      ensures !NotAfter(rest[k].name, name)
    {
      ListedFromFirst(docs, cursor, k);
      assert all[0].name == name && all[k + 1] == rest[k] && all[0].name != all[k + 1].name;
      if NotAfter(rest[k].name, name) { NotAfterIsAntisymmetric(rest[k].name, name); }
    }
    NothingDropped(docs[1..], cursor, name);
  }

  lemma {:induction false} FirstSkipped(docs: seq<Document>, later: string)
    requires docs != [] && NotAfter(docs[0].name, later)
    ensures Listed(docs, Some(later)) == Listed(docs[1..], Some(later))
  {
    hide NotAfter, Listable;
  }

  lemma {:induction false} RestIsSorted(docs: seq<Document>)
    requires Sorted(docs) && docs != []
    ensures Sorted(docs[1..])
  {
    hide NotAfter;
    forall i, j | 0 <= i < j < |docs[1..]|
      ensures NotAfter(docs[1..][i].name, docs[1..][j].name)
    {
      assert NotAfter(docs[i + 1].name, docs[j + 1].name);
    }
  }

  lemma {:induction false} RestIsDistinct(all: seq<Meta>, first: Meta, rest: seq<Meta>)
    requires DistinctNames(all) && all == [first] + rest
    ensures DistinctNames(rest)
  {
    assert forall n | 0 <= n < |rest| :: rest[n] == all[n + 1];
  }

  /** An item behind the first document is listed on from the rest of the directory. */
  lemma {:induction false} ItemInRest(docs: seq<Document>, cursor: Option<string>, k: nat)
    requires Sorted(docs) && docs != [] && k < |Listed(docs[1..], cursor)|
    ensures var later := Listed(docs[1..], cursor)[k].name; Listed(docs, Some(later)) == Listed(docs[1..], Some(later))
  {
    hide NotAfter, Listed, Sorted;
    ListedFromFirst(docs, cursor, k);
    FirstSkipped(docs, Listed(docs[1..], cursor)[k].name);
  }

  /** `all` is listed, and `item` stands between `front` and `back` in it. */
  ghost predicate Around(docs: seq<Document>, cursor: Option<string>, front: seq<Meta>, item: Meta, back: seq<Meta>) {
    Sorted(docs) && DistinctNames(Listed(docs, cursor)) && Listed(docs, cursor) == front + [item] + back
  }

  lemma {:induction false} AroundInRest(docs: seq<Document>, cursor: Option<string>, front: seq<Meta>, item: Meta, back: seq<Meta>)
    requires docs != [] && Around(docs, cursor, front, item, back)
    ensures var first, rest := Meta(docs[0].title, docs[0].name), Listed(docs[1..], cursor);
            || Around(docs[1..], cursor, front, item, back)
            || (Listed(docs, cursor) == [first] + rest && item == first && rest == back && (cursor.Some? ==> !NotAfter(docs[0].name, cursor.value)))
            || (front != [] && Around(docs[1..], cursor, front[1..], item, back))
  {
    var first, all, rest := Meta(docs[0].title, docs[0].name), Listed(docs, cursor), Listed(docs[1..], cursor);
    ListedStep(docs, cursor);
    RestIsSorted(docs);
    hide Listed, NotAfter, Sorted, DistinctNames;
    if all != rest {
      RestIsDistinct(all, first, rest);
      assert all[0] == first && all[1..] == rest;
      if front == [] {
        assert all[0] == item && all[1..] == back;
      } else {
        assert all[1..] == front[1..] + [item] + back;
      }
    }
  }

  /** With distinct names, listing on from an item gives exactly what came after it. */
  lemma {:induction false} ListedFromItem(docs: seq<Document>, cursor: Option<string>, front: seq<Meta>, item: Meta, back: seq<Meta>)
    requires Around(docs, cursor, front, item, back)
    ensures Listed(docs, Some(item.name)) == back
    decreases |docs|
  {
    if docs != [] {
      AroundInRest(docs, cursor, front, item, back);
      assert Sorted(docs) && DistinctNames(Listed(docs, cursor));
      hide Around, NotAfter, Listed;
      if Around(docs[1..], cursor, front, item, back) {
        ItemAround(docs, cursor, front, item, back);
        ListedFromItem(docs[1..], cursor, front, item, back);
      } else if front != [] && Around(docs[1..], cursor, front[1..], item, back) {
        ItemAround(docs, cursor, front[1..], item, back);
        ListedFromItem(docs[1..], cursor, front[1..], item, back);
      } else {
        if cursor.Some? { NotAfterIsTotal(docs[0].name, cursor.value); }
        FirstItemListed(docs, cursor);
      }
    }
  }

  lemma {:induction false} ItemAround(docs: seq<Document>, cursor: Option<string>, front: seq<Meta>, item: Meta, back: seq<Meta>)
    requires Sorted(docs) && docs != [] && Around(docs[1..], cursor, front, item, back)
    ensures Listed(docs, Some(item.name)) == Listed(docs[1..], Some(item.name))
  {
    hide NotAfter, Listed, Sorted, DistinctNames;
    assert Listed(docs[1..], cursor)[|front|] == item;
    ItemInRest(docs, cursor, |front|);
  }

  lemma {:induction false} DistinctNamesChain(docs: seq<Document>, cursor: Option<string>, limit: int)
    requires Sorted(docs) && DistinctNames(Listed(docs, cursor))
    ensures Chained(docs, cursor, limit) == Listed(docs, cursor)
    decreases |Listed(docs, cursor)|
  {
    var all := Listed(docs, cursor);
    var page := PageOf(all, limit);
    if page.1.Some? {
      var size := PageSize(limit);
      PageAdvances(docs, cursor, limit);
      assert all == all[..size - 1] + [all[size - 1]] + all[size..];
      ListedFromItem(docs, cursor, all[..size - 1], all[size - 1], all[size..]);
      assert all == all[..size] + all[size..];
      DistinctNamesChain(docs, page.1, limit);
    }
  }

  lemma {:induction false} SinglesAreDistinct(docs: seq<Document>, cursor: Option<string>)
    ensures var chain := Chained(docs, cursor, 1);
            && DistinctNames(chain)
            && forall i | 0 <= i < |chain| && cursor.Some? :: !NotAfter(chain[i].name, cursor.value)
    decreases |Listed(docs, cursor)|
  {
    var all := Listed(docs, cursor);
    if all != [] {
      var first := all[0];
      assert all[..1] == [first] && PageOf(all, 1) == ([first], Some(first.name));
      PageAdvances(docs, cursor, 1);
      var rest := Chained(docs, Some(first.name), 1);
      SinglesAreDistinct(docs, Some(first.name));
      ListedAreAfter(docs, cursor, 0);
      NotAfterIsReflexive(first.name);
      assert Chained(docs, cursor, 1) == [first] + rest;
      forall i | 0 <= i < |rest| && cursor.Some?
        ensures !NotAfter(rest[i].name, cursor.value)
      {
        if NotAfter(rest[i].name, cursor.value) {
          NotAfterIsTotal(first.name, cursor.value);
          NotAfterIsTransitive(rest[i].name, cursor.value, first.name);
        }
      }
    }
  }

  /**
   Over an unchanged, sorted directory the chained pages give the whole listing, for every page
   size, if and only if no two listed documents have the same relative name.
   */
  lemma {:induction false} PagesAreTheListing(docs: seq<Document>)
    requires Sorted(docs)
    ensures (forall limit :: Chained(docs, None, limit) == Listed(docs, None)) <==> DistinctNames(Listed(docs, None))
  {
    if DistinctNames(Listed(docs, None)) {
      forall limit
        ensures Chained(docs, None, limit) == Listed(docs, None)
      {
        DistinctNamesChain(docs, None, limit);
      }
    }
    SinglesAreDistinct(docs, None);
  }

  /** A name listed twice is lost at a page boundary: one of the two documents appears on no page. */
  lemma {:induction false} SameNameIsLost()
    ensures var docs := [Document("a.md", "A", "x"), Document("a.md", "B", "y")];
            && Sorted(docs) && Listed(docs, None) == [Meta("A", "a.md"), Meta("B", "a.md")]
            && Chained(docs, None, 1) == [Meta("A", "a.md")]
  {
    var docs := [Document("a.md", "A", "x"), Document("a.md", "B", "y")];
    var name, second := "a.md", [Document("a.md", "B", "y")];
    NotAfterIsReflexive(name);
    assert Find("x", "sk-", 0).None? && Find("y", "sk-", 0).None?;
    hide Find, NotAfter;
    assert docs[1..] == second && second[1..] == [];
    assert Listable(docs[0]) && Listable(second[0]);
    hide Listable;
    assert Listed(second, None) == [Meta("B", name)] + Listed([], None) && Listed(second, Some(name)) == [] + Listed([], Some(name));
    assert Listed(docs, None) == [Meta("A", name)] + Listed(second, None) && Listed(docs, Some(name)) == [] + Listed(second, Some(name));
    PageAdvances(docs, None, 1);
    hide Listed;
    assert Listed(docs, None)[..1] == [Meta("A", name)];
    assert Chained(docs, Some(name), 1) == [];
  }
}
