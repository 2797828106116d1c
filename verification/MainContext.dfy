/** Choosing the recent messages that are frozen into a main-agent run (backend/src/application/services.py). */
module MainContext {
  import opened Wrappers
  import opened MainInput

  datatype Candidate = Candidate(id: Id, at: int, role: Role, content: string)

  /** A run of the session: its two live messages when it is a succeeded answer or question, else nothing. */
  datatype RunMessages = RunMessages(input: Candidate, assistant: Candidate)

  predicate Before(a: Candidate, b: Candidate) { a.at < b.at || (a.at == b.at && a.id <= b.id) }

  // ----- gathering, newest run first

  /** The messages of the newest runs that have them, up to four runs; `runs` is in order of creation. */
  function Gathered(runs: seq<Option<RunMessages>>, soFar: nat): seq<Candidate> {
    if runs == [] || soFar >= MAX_CONTEXT_MESSAGES * 2 then []
    else
      var n := |runs| - 1;
      if runs[n].None? then Gathered(runs[..n], soFar)
      else [runs[n].value.input, runs[n].value.assistant] + Gathered(runs[..n], soFar + 2)
  }

  // ----- sorting by time, then id

  function Insert(sorted: seq<Candidate>, c: Candidate): seq<Candidate> {
    if sorted == [] || Before(c, sorted[0]) then [c] + sorted else [sorted[0]] + Insert(sorted[1..], c)
  }

  function InTimeOrder(candidates: seq<Candidate>): seq<Candidate> {
    if candidates == [] then [] else Insert(InTimeOrder(candidates[1..]), candidates[0])
  }

  ghost predicate Ordered(candidates: seq<Candidate>) {
    forall i, j | 0 <= i < j < |candidates| :: Before(candidates[i], candidates[j])
  }

  lemma {:induction false} InsertKeepsOrder(sorted: seq<Candidate>, c: Candidate)
    requires Ordered(sorted)
    ensures Ordered(Insert(sorted, c)) && multiset(Insert(sorted, c)) == multiset(sorted) + multiset{c}
  {
    if sorted != [] && !Before(c, sorted[0]) {
      var rest := Insert(sorted[1..], c);
      InsertKeepsOrder(sorted[1..], c);
      assert sorted == [sorted[0]] + sorted[1..];
      forall x | x in rest
        ensures Before(sorted[0], x)
      {
        assert x in multiset(rest);
        assert x in sorted[1..] || x == c;
      }
    } else {
      assert multiset([c] + sorted) == multiset{c} + multiset(sorted);
    }
  }

  /** The sort puts the same messages in time order. */
  lemma {:induction false} SortIsPermutation(candidates: seq<Candidate>)
    ensures Ordered(InTimeOrder(candidates)) && multiset(InTimeOrder(candidates)) == multiset(candidates)
  {
    if candidates != [] {
      SortIsPermutation(candidates[1..]);
      InsertKeepsOrder(InTimeOrder(candidates[1..]), candidates[0]);
      assert candidates == [candidates[0]] + candidates[1..];
    }
  }

  // ----- selecting from the newest message back

  predicate Usable(c: Candidate) { 1 <= |c.content| <= MAX_CONTEXT_CODEPOINTS }

  /** Whether the newest of `candidates` is taken when `taken` newer messages of `total` characters were. */
  predicate Fits(c: Candidate, taken: nat, total: nat) {
    taken < MAX_CONTEXT_MESSAGES && Usable(c) && total + |c.content| <= MAX_CONTEXT_CODEPOINTS
  }

  function Selected(candidates: seq<Candidate>, taken: nat, total: nat): seq<Candidate> {
    if candidates == [] then []
    else
      var n := |candidates| - 1;
      if Fits(candidates[n], taken, total)
      then Selected(candidates[..n], taken + 1, total + |candidates[n].content|) + [candidates[n]]
      else Selected(candidates[..n], taken, total)
  }

  function AsContext(candidates: seq<Candidate>): seq<ContextMessage> {
    seq(|candidates|, i requires 0 <= i < |candidates| => ContextMessage(candidates[i].id, candidates[i].role, candidates[i].content))
  }

  function Sizes(candidates: seq<Candidate>): nat {
    if candidates == [] then 0 else Sizes(candidates[..|candidates| - 1]) + |candidates[|candidates| - 1].content|
  }

  /** `_select_main_context`; `runs` are the session's latest runs in order of creation. */
  method SelectMainContext(runs: seq<Option<RunMessages>>) returns (context: seq<ContextMessage>)
    ensures context == AsContext(Selected(InTimeOrder(Gathered(runs, 0)), 0, 0))
    ensures ValidContext(context)
  {
    var candidates: seq<Candidate> := [];
    var i := |runs|;
    assert runs[..i] == runs && candidates + Gathered(runs, 0) == Gathered(runs, 0);
    while i > 0
      invariant 0 <= i <= |runs|
      invariant Gathered(runs, 0) == candidates + Gathered(runs[..i], |candidates|)
    {
      i := i - 1;
      assert runs[..i + 1][..i] == runs[..i];
      if |candidates| >= MAX_CONTEXT_MESSAGES * 2 { break; }
      if runs[i].Some? {
        ghost var was, rest := candidates, Gathered(runs[..i], |candidates| + 2);
        candidates := candidates + [runs[i].value.input, runs[i].value.assistant];
        assert was + ([runs[i].value.input, runs[i].value.assistant] + rest) == candidates + rest;
      }
    }
    assert candidates + [] == candidates;
    candidates := InTimeOrder(candidates);
    var selected := Choose(candidates);
    context := AsContext(selected);
    SelectionIsValid(candidates);
  }

  /** The selection loop: newest first, then turned round. */
  method Choose(candidates: seq<Candidate>) returns (selected: seq<Candidate>)
    ensures selected == Selected(candidates, 0, 0)
  {
    var chosen: seq<Candidate> := [];  // newest first
    var total: nat := 0;
    selected := [];
    var i := |candidates|;
    assert candidates[..i] == candidates && Selected(candidates, 0, 0) + selected == Selected(candidates, 0, 0);
    while i > 0
      invariant 0 <= i <= |candidates| && |chosen| == |selected|
      invariant forall k | 0 <= k < |chosen| :: selected[k] == chosen[|chosen| - 1 - k]
      invariant Selected(candidates, 0, 0) == Selected(candidates[..i], |chosen|, total) + selected
    {
      i := i - 1;
      assert candidates[..i + 1][..i] == candidates[..i];
      if |chosen| >= MAX_CONTEXT_MESSAGES {
        NoneFit(candidates[..i + 1], |chosen|, total);
        assert [] + selected == selected;
        return;
      }
      var c := candidates[i];
      if Usable(c) && total + |c.content| <= MAX_CONTEXT_CODEPOINTS {
        ghost var front, was := Selected(candidates[..i], |chosen| + 1, total + |c.content|), selected;
        chosen := chosen + [c];
        total := total + |c.content|;
        selected := [c] + selected;
        assert (front + [c]) + was == front + selected;
      }
    }
    assert [] + selected == selected;
  }

  lemma {:induction false} NoneFit(candidates: seq<Candidate>, taken: nat, total: nat)
    requires taken >= MAX_CONTEXT_MESSAGES
    ensures Selected(candidates, taken, total) == []
    decreases |candidates|
  {
    if candidates != [] { NoneFit(candidates[..|candidates| - 1], taken, total); }
  }

  lemma {:induction false} SelectedBounds(candidates: seq<Candidate>, taken: nat, total: nat)
    requires taken <= MAX_CONTEXT_MESSAGES && total <= MAX_CONTEXT_CODEPOINTS
    ensures var s := Selected(candidates, taken, total);
            && taken + |s| <= MAX_CONTEXT_MESSAGES && total + Sizes(s) <= MAX_CONTEXT_CODEPOINTS
            && forall i | 0 <= i < |s| :: Usable(s[i])
    decreases |candidates|
  {
    if candidates != [] {
      var n := |candidates| - 1;
      var c := candidates[n];
      if Fits(c, taken, total) {
        SelectedBounds(candidates[..n], taken + 1, total + |c.content|);
        var front := Selected(candidates[..n], taken + 1, total + |c.content|);
        assert (front + [c])[..|front|] == front;
      } else {
        SelectedBounds(candidates[..n], taken, total);
      }
    }
  }

  lemma {:induction false} SizesAreContextSize(candidates: seq<Candidate>)
    ensures ContextSize(AsContext(candidates)) == Sizes(candidates)
    decreases |candidates|
  {
    if candidates != [] {
      var n := |candidates| - 1;
      SizesAreContextSize(candidates[..n]);
      var last := ContextMessage(candidates[n].id, candidates[n].role, candidates[n].content);
      assert AsContext(candidates) == AsContext(candidates[..n]) + [last];
      ContextSizeAppend(AsContext(candidates[..n]), last);
    }
  }

  lemma {:induction false} ContextSizeAppend(context: seq<ContextMessage>, m: ContextMessage)
    ensures ContextSize(context + [m]) == ContextSize(context) + |m.content|
  {
    if context == [] {
      assert context + [m] == [m];
    } else {
      assert (context + [m])[1..] == context[1..] + [m];
      ContextSizeAppend(context[1..], m);
    }
  }

  /** What is selected always passes the snapshot's own context validator. */
  lemma SelectionIsValid(candidates: seq<Candidate>)
    ensures ValidContext(AsContext(Selected(candidates, 0, 0)))
  {
    SelectedBounds(candidates, 0, 0);
    SizesAreContextSize(Selected(candidates, 0, 0));
  }

  // ----- what is kept, in the rules' own numbers

  ghost predicate Places(candidates: seq<Candidate>, places: seq<nat>) {
    forall k | 0 <= k < |places| :: places[k] < |candidates|
  }

  /** The characters of the messages at these places. */
  ghost function Characters(candidates: seq<Candidate>, places: seq<nat>): nat
    requires Places(candidates, places)
  {
    if places == [] then 0
    else Characters(candidates, places[..|places| - 1]) + |candidates[places[|places| - 1]].content|
  }

  /** `kept` are places in time order, and the selected messages are the ones there. */
  ghost predicate StandAt(candidates: seq<Candidate>, kept: seq<nat>, selected: seq<Candidate>) {
    && |selected| == |kept|
    && (forall k | 0 <= k < |kept| :: kept[k] < |candidates| && selected[k] == candidates[kept[k]])
    && forall j, k | 0 <= j < k < |kept| :: kept[j] < kept[k]
  }

  /** There is room for a message when `newer` newer ones with `characters` in all were kept: four messages, 2000 characters. */
  predicate Room(c: Candidate, newer: int, characters: int) {
    newer < 4 && 1 <= |c.content| && characters + |c.content| <= 2_000
  }

  /** Every kept message had room, given the newer ones kept. */
  ghost predicate KeptHadRoom(candidates: seq<Candidate>, kept: seq<nat>, taken: nat, total: nat)
    requires Places(candidates, kept)
  {
    forall k | 0 <= k < |kept| ::
      Room(candidates[kept[k]], taken + |kept| - k - 1, total + Characters(candidates, kept[k + 1..]))
  }

  /** Place `i` lies between the `k`-th kept place and the one before it. */
  predicate Between(kept: seq<nat>, i: nat, k: nat) {
    k <= |kept| && (k > 0 ==> kept[k - 1] < i) && (k < |kept| ==> i < kept[k])
  }

  /** No message passed over had room. */
  ghost predicate OthersHadNone(candidates: seq<Candidate>, kept: seq<nat>, taken: nat, total: nat)
    requires Places(candidates, kept)
  {
    forall i: nat, k: nat | i < |candidates| && Between(kept, i, k) ::
      !Room(candidates[i], taken + |kept| - k, total + Characters(candidates, kept[k..]))
  }

  ghost predicate KeepsWhatFits(candidates: seq<Candidate>, kept: seq<nat>, selected: seq<Candidate>, taken: nat, total: nat) {
    StandAt(candidates, kept, selected) && KeptHadRoom(candidates, kept, taken, total) && OthersHadNone(candidates, kept, taken, total)
  }

  lemma {:induction false} CharactersOfFront(candidates: seq<Candidate>, places: seq<nat>)
    requires candidates != [] && forall k | 0 <= k < |places| :: places[k] < |candidates| - 1
    ensures Characters(candidates[..|candidates| - 1], places) == Characters(candidates, places)
    decreases |places|
  {
    if places != [] { CharactersOfFront(candidates, places[..|places| - 1]); }
  }

  lemma {:induction false} CharactersWithLast(candidates: seq<Candidate>, places: seq<nat>)
    requires candidates != [] && forall k | 0 <= k < |places| :: places[k] < |candidates| - 1
    ensures Characters(candidates, places + [|candidates| - 1])
            == Characters(candidates[..|candidates| - 1], places) + |candidates[|candidates| - 1].content|
  {
    var all := places + [|candidates| - 1];
    assert all[..|all| - 1] == places;
    CharactersOfFront(candidates, places);
  }

  /** `all` is `kept` and the last place. */
  ghost predicate WithLast(candidates: seq<Candidate>, kept: seq<nat>, all: seq<nat>) {
    candidates != [] && all == kept + [|candidates| - 1] && forall j | 0 <= j < |kept| :: kept[j] < |candidates| - 1
  }

  lemma {:induction false} RestWithLast(candidates: seq<Candidate>, kept: seq<nat>, all: seq<nat>, k: nat)
    requires WithLast(candidates, kept, all) && k <= |kept|
    ensures (forall j | 0 <= j < |kept[k..]| :: kept[k..][j] < |candidates| - 1) && Places(candidates, all[k..])
    ensures Characters(candidates, all[k..])
            == Characters(candidates[..|candidates| - 1], kept[k..]) + |candidates[|candidates| - 1].content|
  {
    assert all[k..] == kept[k..] + [|candidates| - 1];
    hide Characters;
    CharactersWithLast(candidates, kept[k..]);
  }

  lemma {:induction false} KeptBefore(candidates: seq<Candidate>, kept: seq<nat>, all: seq<nat>, taken: nat, total: nat, k: nat)
    requires WithLast(candidates, kept, all) && k < |kept|
    requires var n := |candidates| - 1; KeptHadRoom(candidates[..n], kept, taken + 1, total + |candidates[n].content|)
    ensures Places(candidates, all[k + 1..])
    ensures Room(candidates[all[k]], taken + |all| - k - 1, total + Characters(candidates, all[k + 1..]))
  {
    var n := |candidates| - 1;
    RestWithLast(candidates, kept, all, k + 1);
    hide Room;
    assert Room(candidates[..n][kept[k]], taken + 1 + |kept| - k - 1, total + |candidates[n].content| + Characters(candidates[..n], kept[k + 1..]));
  }

  lemma {:induction false} AllHadRoom(candidates: seq<Candidate>, kept: seq<nat>, all: seq<nat>, taken: nat, total: nat)
    requires WithLast(candidates, kept, all) && Room(candidates[|candidates| - 1], taken, total)
    requires var n := |candidates| - 1; KeptHadRoom(candidates[..n], kept, taken + 1, total + |candidates[n].content|)
    ensures Places(candidates, all) && KeptHadRoom(candidates, all, taken, total)
  {
    hide Room;
    forall k | 0 <= k < |all|
      ensures Room(candidates[all[k]], taken + |all| - k - 1, total + Characters(candidates, all[k + 1..]))
    {
      if k < |kept| {
        KeptBefore(candidates, kept, all, taken, total, k);
      } else {
        assert all[k + 1..] == [];
      }
    }
  }

  lemma {:induction false} PassedOverBefore(candidates: seq<Candidate>, kept: seq<nat>, all: seq<nat>, taken: nat, total: nat, i: nat, k: nat)
    requires WithLast(candidates, kept, all) && i < |candidates| && Between(all, i, k)
    requires var n := |candidates| - 1; OthersHadNone(candidates[..n], kept, taken + 1, total + |candidates[n].content|)
    ensures k <= |all| && Places(candidates, all[k..])
    ensures !Room(candidates[i], taken + |all| - k, total + Characters(candidates, all[k..]))
  {
    var n := |candidates| - 1;
    assert k <= |kept| && i < n && Between(kept, i, k);
    RestWithLast(candidates, kept, all, k);
    hide Room, Between;
    assert !Room(candidates[..n][i], taken + 1 + |kept| - k, total + |candidates[n].content| + Characters(candidates[..n], kept[k..]));
  }

  lemma {:induction false} NoneHadRoom(candidates: seq<Candidate>, kept: seq<nat>, all: seq<nat>, taken: nat, total: nat)
    requires WithLast(candidates, kept, all) && Places(candidates, all)
    requires var n := |candidates| - 1; OthersHadNone(candidates[..n], kept, taken + 1, total + |candidates[n].content|)
    ensures OthersHadNone(candidates, all, taken, total)
  {
    hide Room, Between, WithLast, Characters;
    forall i: nat, k: nat | i < |candidates| && Between(all, i, k)
      ensures k <= |all| && !Room(candidates[i], taken + |all| - k, total + Characters(candidates, all[k..]))
    {
      PassedOverBefore(candidates, kept, all, taken, total, i, k);
    }
  }

  lemma {:induction false} StandAtLast(candidates: seq<Candidate>, kept: seq<nat>, selected: seq<Candidate>)
    requires candidates != [] && StandAt(candidates[..|candidates| - 1], kept, selected)
    ensures StandAt(candidates, kept + [|candidates| - 1], selected + [candidates[|candidates| - 1]])
    ensures WithLast(candidates, kept, kept + [|candidates| - 1])
  {
  }

  lemma {:induction false} KeptLast(candidates: seq<Candidate>, kept: seq<nat>, selected: seq<Candidate>, taken: nat, total: nat)
    requires candidates != [] && Room(candidates[|candidates| - 1], taken, total)
    requires var c := candidates[|candidates| - 1];
             KeepsWhatFits(candidates[..|candidates| - 1], kept, selected, taken + 1, total + |c.content|)
    ensures KeepsWhatFits(candidates, kept + [|candidates| - 1], selected + [candidates[|candidates| - 1]], taken, total)
  {
    StandAtLast(candidates, kept, selected);
    hide Room, StandAt, WithLast, OthersHadNone, KeptHadRoom;
    AllHadRoom(candidates, kept, kept + [|candidates| - 1], taken, total);
    NoneHadRoom(candidates, kept, kept + [|candidates| - 1], taken, total);
  }

  lemma {:induction false} PassedOverLast(candidates: seq<Candidate>, kept: seq<nat>, selected: seq<Candidate>, taken: nat, total: nat)
    requires candidates != [] && !Room(candidates[|candidates| - 1], taken, total)
    requires KeepsWhatFits(candidates[..|candidates| - 1], kept, selected, taken, total)
    ensures KeepsWhatFits(candidates, kept, selected, taken, total)
  {
    var n := |candidates| - 1;
    var front := candidates[..n];
    forall k | 0 <= k < |kept|
      ensures Room(candidates[kept[k]], taken + |kept| - k - 1, total + Characters(candidates, kept[k + 1..]))
    {
      CharactersOfFront(candidates, kept[k + 1..]);
      assert Room(front[kept[k]], taken + |kept| - k - 1, total + Characters(front, kept[k + 1..]));
    }
    forall i: nat, k: nat | i < |candidates| && Between(kept, i, k)
      ensures !Room(candidates[i], taken + |kept| - k, total + Characters(candidates, kept[k..]))
    {
      CharactersOfFront(candidates, kept[k..]);
      if i < n {
        assert !Room(front[i], taken + |kept| - k, total + Characters(front, kept[k..]));
      } else {
        assert kept[k..] == [];
      }
    }
  }

  lemma FitsIsRoom(c: Candidate, taken: nat, total: nat)
    ensures Fits(c, taken, total) <==> Room(c, taken, total)
  {
  }

  lemma {:induction false} SelectedKeepsWhatFits(candidates: seq<Candidate>, taken: nat, total: nat)
    ensures exists kept :: KeepsWhatFits(candidates, kept, Selected(candidates, taken, total), taken, total)
    decreases |candidates|
  {
    hide Fits, Room, KeepsWhatFits;
    if candidates == [] {
      NothingToKeep(taken, total);
    } else {
      var n := |candidates| - 1;
      var c, front := candidates[n], candidates[..n];
      FitsIsRoom(c, taken, total);
      if Fits(c, taken, total) {
        SelectedKeepsWhatFits(front, taken + 1, total + |c.content|);
        var rest := Selected(front, taken + 1, total + |c.content|);
        var kept :| KeepsWhatFits(front, kept, rest, taken + 1, total + |c.content|);
        KeptLast(candidates, kept, rest, taken, total);
        assert KeepsWhatFits(candidates, kept + [n], Selected(candidates, taken, total), taken, total);
      } else {
        SelectedKeepsWhatFits(front, taken, total);
        var kept :| KeepsWhatFits(front, kept, Selected(front, taken, total), taken, total);
        PassedOverLast(candidates, kept, Selected(front, taken, total), taken, total);
        assert KeepsWhatFits(candidates, kept, Selected(candidates, taken, total), taken, total);
      }
    }
  }

  lemma NothingToKeep(taken: nat, total: nat)
    ensures KeepsWhatFits([], [], Selected([], taken, total), taken, total)
  {
  }

  /**
   The selection is a subsequence in time order. A kept message has at least one character, at most three
   newer ones were kept, and with them it has at most 2000 characters; no message passed over would have
   kept to that.
   */
  lemma {:induction false} SelectionKeepsWhatFits(candidates: seq<Candidate>)
    ensures exists kept :: KeepsWhatFits(candidates, kept, Selected(candidates, 0, 0), 0, 0)
  {
    SelectedKeepsWhatFits(candidates, 0, 0);
  }

  // ----- whose messages are gathered

  function HowMany(runs: seq<Option<RunMessages>>): nat {
    if runs == [] then 0 else (if runs[0].Some? then 1 else 0) + HowMany(runs[1..])
  }

  /** The candidate is a message of run `i`, which has fewer than so many newer ones with messages. */
  ghost predicate OfARecentRun(runs: seq<Option<RunMessages>>, i: nat, c: Candidate, limit: int) {
    && i < |runs| && runs[i].Some? && HowMany(runs[i + 1..]) < limit
    && (c == runs[i].value.input || c == runs[i].value.assistant)
  }

  lemma {:induction false} HowManyAppend(runs: seq<Option<RunMessages>>, last: Option<RunMessages>)
    ensures HowMany(runs + [last]) == HowMany(runs) + if last.Some? then 1 else 0
    decreases |runs|
  {
    if runs == [] {
      assert runs + [last] == [last] && [last][1..] == [];
    } else {
      assert (runs + [last])[1..] == runs[1..] + [last];
      HowManyAppend(runs[1..], last);
    }
  }

  lemma {:induction false} RecentInFront(runs: seq<Option<RunMessages>>, i: nat, c: Candidate, limit: int)
    requires runs != [] && i < |runs| - 1
    ensures var n := |runs| - 1;
            OfARecentRun(runs, i, c, limit) <==> OfARecentRun(runs[..n], i, c, if runs[n].Some? then limit - 1 else limit)
  {
    var n := |runs| - 1;
    assert runs[i + 1..] == runs[..n][i + 1..] + [runs[n]];
    HowManyAppend(runs[..n][i + 1..], runs[n]);
  }

  lemma {:induction false} GatheredFromRecent(runs: seq<Option<RunMessages>>, soFar: nat, limit: int, c: Candidate)
    requires soFar + 2 * limit == 8
    ensures c in Gathered(runs, soFar) <==> exists i: nat :: OfARecentRun(runs, i, c, limit)
    decreases |runs|
  {
    hide OfARecentRun, HowMany;
    if runs == [] || soFar >= 8 {
      NoRecentRun(runs, limit, c);
    } else {
      var n := |runs| - 1;
      var left := if runs[n].Some? then limit - 1 else limit;
      GatheredFromRecent(runs[..n], if runs[n].Some? then soFar + 2 else soFar, left, c);
      NewestIsRecent(runs, c, limit);
      RecentWithNewest(runs, runs[..n], c, limit, left);
    }
  }

  lemma {:induction false} RecentWithNewest(runs: seq<Option<RunMessages>>, front: seq<Option<RunMessages>>, c: Candidate, limit: int, left: int)
    requires runs != [] && front == runs[..|runs| - 1] && left == if runs[|runs| - 1].Some? then limit - 1 else limit
    ensures (exists i: nat :: OfARecentRun(runs, i, c, limit))
            <==> OfARecentRun(runs, |runs| - 1, c, limit) || exists i: nat :: OfARecentRun(front, i, c, left)
  {
    var n := |runs| - 1;
    hide HowMany;
    if i: nat :| OfARecentRun(runs, i, c, limit) && i < n {
      RecentInFront(runs, i, c, limit);
    }
    if i: nat :| OfARecentRun(front, i, c, left) {
      RecentInFront(runs, i, c, limit);
    }
  }

  lemma {:induction false} NoRecentRun(runs: seq<Option<RunMessages>>, limit: int, c: Candidate)
    requires runs == [] || limit <= 0
    ensures forall i: nat :: !OfARecentRun(runs, i, c, limit)
  {
  }

  lemma {:induction false} NewestIsRecent(runs: seq<Option<RunMessages>>, c: Candidate, limit: int)
    requires runs != [] && limit > 0
    ensures var n := |runs| - 1;
            OfARecentRun(runs, n, c, limit) <==> runs[n].Some? && (c == runs[n].value.input || c == runs[n].value.assistant)
  {
    assert runs[|runs| - 1 + 1..] == [];
  }

  /** The candidates are the messages of the four newest runs that have any. */
  lemma {:induction false} FourNewestRunsAreGathered(runs: seq<Option<RunMessages>>, c: Candidate)
    ensures c in Gathered(runs, 0) <==> exists i: nat :: OfARecentRun(runs, i, c, 4)
  {
    GatheredFromRecent(runs, 0, 4, c);
  }
}
