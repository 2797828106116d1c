/** The sliding window over a conversation (backend/src/memory/short_term.py). */
module ShortTermMemory {
  datatype Role = System | User | Assistant | Tool

  datatype Message = Message(role: Role, content: string)

  function Systems(ms: seq<Message>): seq<Message> {
    if ms == [] then []
    else
      var n := |ms| - 1;
      Systems(ms[..n]) + if ms[n].role == System then [ms[n]] else []
  }

  function Others(ms: seq<Message>): seq<Message> {
    if ms == [] then []
    else
      var n := |ms| - 1;
      Others(ms[..n]) + if ms[n].role != System then [ms[n]] else []
  }

  function Users(ms: seq<Message>): nat {
    if ms == [] then 0 else (if ms[0].role == User then 1 else 0) + Users(ms[1..])
  }

  /** What follows the k-th user message; everything when there is no such message. */
  function AfterUser(ms: seq<Message>, k: int): seq<Message> {
    if k <= 0 || k > Users(ms) then ms
    else if ms[0].role == User then if k == 1 then ms[1..] else AfterUser(ms[1..], k - 1)
    else AfterUser(ms[1..], k)
  }

  lemma {:induction false} AfterUserIsSuffix(ms: seq<Message>, k: int)
    ensures var rest := AfterUser(ms, k);
            |rest| <= |ms| && rest == ms[|ms| - |rest|..]
            && Users(rest) == if 1 <= k <= Users(ms) then Users(ms) - k else Users(ms)
  {
    if 1 <= k <= Users(ms) && !(ms[0].role == User && k == 1) {
      AfterUserIsSuffix(ms[1..], if ms[0].role == User then k - 1 else k);
    }
  }

  /** One-shot trimming of a whole history to its last `maxRounds` rounds. */
  function Trimmed(ms: seq<Message>, maxRounds: int): seq<Message> {
    if Users(ms) > maxRounds then AfterUser(ms, Users(ms) - maxRounds) else ms
  }

  lemma {:induction false} UsersAppend(ms: seq<Message>, m: Message)
    ensures Users(ms + [m]) == Users(ms) + if m.role == User then 1 else 0
  {
    if ms == [] {
      assert ms + [m] == [m];
    } else {
      assert (ms + [m])[1..] == ms[1..] + [m];
      UsersAppend(ms[1..], m);
    }
  }

  /** The two comprehensions of `_trim`. */
  method Separate(ms: seq<Message>) returns (systems: seq<Message>, others: seq<Message>)
    ensures systems == Systems(ms) && others == Others(ms)
  {
    systems, others := [], [];
    for i := 0 to |ms|
      invariant systems == Systems(ms[..i]) && others == Others(ms[..i])
    {
      assert ms[..i + 1][..i] == ms[..i];
      if ms[i].role == System { systems := systems + [ms[i]]; } else { others := others + [ms[i]]; }
    }
    assert ms[..|ms|] == ms;
  }

  method CountUsers(ms: seq<Message>) returns (users: nat)
    ensures users == Users(ms)
  {
    users := 0;
    for i := 0 to |ms|
      invariant users + Users(ms[i..]) == Users(ms)
    {
      assert ms[i..][1..] == ms[i + 1..];
      if ms[i].role == User { users := users + 1; }
    }
  }

  /** The position behind the user message to skip to; 0 when there are not that many. */
  method KeepFrom(ms: seq<Message>, toSkip: int) returns (keepFrom: nat)
    requires toSkip >= 1
    ensures keepFrom <= |ms| && ms[keepFrom..] == AfterUser(ms, toSkip)
  {
    var skipped := 0;
    keepFrom := 0;
    for i := 0 to |ms|
      invariant 0 <= skipped < toSkip && keepFrom == 0 && skipped + Users(ms[i..]) == Users(ms)
      invariant toSkip <= Users(ms) ==> AfterUser(ms, toSkip) == AfterUser(ms[i..], toSkip - skipped)
    {
      assert ms[i..][1..] == ms[i + 1..];
      if ms[i].role == User {
        skipped := skipped + 1;
        if skipped == toSkip { return i + 1; }
      }
    }
  }

  class ShortTermMemory {
    const systemPrompt: Message
    const maxRounds: int
    var messages: seq<Message>
    /** Everything ever added since the start or the last `Clear`. */
    ghost var history: seq<Message>

    /** The incremental window is the one-shot window of the history, behind all system messages. */
    ghost predicate Valid()
      reads this
    {
      && systemPrompt.role == System
      && messages == Systems([systemPrompt] + history) + Trimmed(Others(history), maxRounds)
    }

    constructor (content: string, maxRounds: int)
      ensures Valid() && history == [] && this.maxRounds == maxRounds
      ensures systemPrompt == Message(System, content) && messages == [systemPrompt]
    {
      systemPrompt := Message(System, content);
      this.maxRounds := maxRounds;
      messages := [Message(System, content)];
      history := [];
      new;
      assert [systemPrompt] + history == [systemPrompt] && [systemPrompt][..0] == [];
    }

    method AddMessage(m: Message)
      requires Valid()
      modifies this
      ensures Valid() && history == old(history) + [m]
    {
      WindowIsIncremental(systemPrompt, history, m, maxRounds);
      messages := messages + [m];
      Trim();
      history := history + [m];
    }

    /** `_trim` */
    method Trim()
      modifies this`messages
      ensures messages == Systems(old(messages)) + Trimmed(Others(old(messages)), maxRounds)
    {
      var systems, others := Separate(messages);
      var users := CountUsers(others);
      if users > maxRounds {
        var keepFrom := KeepFrom(others, users - maxRounds);
        others := others[keepFrom..];
      }
      messages := systems + others;
    }

    method Clear()
      requires Valid()
      modifies this
      ensures Valid() && history == [] && messages == [systemPrompt]
    {
      messages := [systemPrompt];
      history := [];
      assert [systemPrompt] + history == [systemPrompt] && [systemPrompt][..0] == [];
    }
  }

  // ----- the incremental window refines the one-shot window

  lemma {:induction false} AfterUserAppend(ms: seq<Message>, m: Message, k: int)
    requires k <= Users(ms)
    ensures AfterUser(ms + [m], k) == AfterUser(ms, k) + [m]
  {
    UsersAppend(ms, m);
    if k > 0 {
      assert (ms + [m])[1..] == ms[1..] + [m];
      if ms[0].role != User {
        AfterUserAppend(ms[1..], m, k);
      } else if k > 1 {
        AfterUserAppend(ms[1..], m, k - 1);
      }
    }
  }

  lemma {:induction false} AfterUserTwice(ms: seq<Message>, j: int, k: int)
    requires 0 <= j && 0 <= k && j + k <= Users(ms)
    ensures AfterUser(AfterUser(ms, j), k) == AfterUser(ms, j + k)
    decreases |ms|
  {
    if j > 0 {
      AfterUserTwice(ms[1..], if ms[0].role == User then j - 1 else j, k);
      if ms[0].role == User && j == 1 { assert AfterUser(ms[1..], 0) == ms[1..]; }
    }
  }

  /** Trimming a trimmed window after one more message is trimming the whole history. */
  lemma TrimIsIncremental(others: seq<Message>, m: Message, maxRounds: int)
    ensures Trimmed(Trimmed(others, maxRounds) + [m], maxRounds) == Trimmed(others + [m], maxRounds)
  {
    var kept, users := Trimmed(others, maxRounds), Users(others);
    UsersAppend(others, m);
    UsersAppend(kept, m);
    if maxRounds < 0 {
      TooFewUsers(others, maxRounds);
      TooFewUsers(others + [m], maxRounds);
    } else if users > maxRounds {
      var k := users - maxRounds;
      AfterUserIsSuffix(others, k);
      AfterUserAppend(others, m, k);
      if m.role == User { AfterUserTwice(others + [m], k, 1); }
    }
  }

  /** With a negative limit there are never enough user messages to skip: nothing is trimmed. */
  lemma TooFewUsers(others: seq<Message>, maxRounds: int)
    requires maxRounds < 0
    ensures Trimmed(others, maxRounds) == others
  {
  }

  lemma {:induction false} SplitConcat(a: seq<Message>, b: seq<Message>)
    ensures Systems(a + b) == Systems(a) + Systems(b) && Others(a + b) == Others(a) + Others(b)
    decreases |b|
  {
    if b == [] {
      assert a + b == a;
    } else {
      var n := |b| - 1;
      assert (a + b)[..|a| + n] == a + b[..n];
      SplitConcat(a, b[..n]);
    }
  }

  lemma {:induction false} SystemsAreSystems(ms: seq<Message>)
    ensures Systems(Systems(ms)) == Systems(ms) && Others(Systems(ms)) == []
    decreases |ms|
  {
    if ms != [] {
      var n := |ms| - 1;
      SystemsAreSystems(ms[..n]);
      SplitConcat(Systems(ms[..n]), [ms[n]]);
      assert [ms[n]][..0] == [];
      assert Systems(ms[..n]) + [] == Systems(ms[..n]);
    }
  }

  ghost predicate NoSystem(ms: seq<Message>) { forall i | 0 <= i < |ms| :: ms[i].role != System }

  lemma {:induction false} OthersHaveNoSystem(ms: seq<Message>)
    ensures NoSystem(Others(ms))
    decreases |ms|
  {
    if ms != [] { OthersHaveNoSystem(ms[..|ms| - 1]); }
  }

  lemma {:induction false} NoSystemSplits(ms: seq<Message>)
    requires NoSystem(ms)
    ensures Systems(ms) == [] && Others(ms) == ms
    decreases |ms|
  {
    if ms != [] {
      NoSystemSplits(ms[..|ms| - 1]);
      assert ms == ms[..|ms| - 1] + [ms[|ms| - 1]];
    }
  }

  lemma TrimmedHasNoSystem(others: seq<Message>, maxRounds: int)
    requires NoSystem(others)
    ensures NoSystem(Trimmed(others, maxRounds))
  {
    AfterUserIsSuffix(others, Users(others) - maxRounds);
  }

  lemma WindowSplits(prompt: Message, history: seq<Message>, maxRounds: int)
    requires prompt.role == System
    ensures var systems, kept := Systems([prompt] + history), Trimmed(Others(history), maxRounds);
            Systems(systems + kept) == systems && Others(systems + kept) == kept
  {
    var systems, kept := Systems([prompt] + history), Trimmed(Others(history), maxRounds);
    OthersHaveNoSystem(history);
    TrimmedHasNoSystem(Others(history), maxRounds);
    NoSystemSplits(kept);
    SystemsAreSystems([prompt] + history);
    hide Systems, Others, Trimmed, NoSystem;
    SplitConcat(systems, kept);
  }

  lemma OneMessage(m: Message)
    ensures Systems([m]) == if m.role == System then [m] else []
    ensures Others([m]) == if m.role == System then [] else [m]
  {
    assert [m][..0] == [];
  }

  /** One `add_message` on the incremental window gives the one-shot window of the longer history. */
  lemma WindowIsIncremental(prompt: Message, history: seq<Message>, m: Message, maxRounds: int)
    requires prompt.role == System
    ensures var window := Systems([prompt] + history) + Trimmed(Others(history), maxRounds) + [m];
            Systems(window) + Trimmed(Others(window), maxRounds)
            == Systems([prompt] + (history + [m])) + Trimmed(Others(history + [m]), maxRounds)
  {
    var systems, kept := Systems([prompt] + history), Trimmed(Others(history), maxRounds);
    hide Systems, Others, Trimmed, Users, AfterUser;
    WindowSplits(prompt, history, maxRounds);
    SplitConcat(systems + kept, [m]);
    SplitConcat([prompt] + history, [m]);
    SplitConcat(history, [m]);
    OneMessage(m);
    assert [prompt] + (history + [m]) == ([prompt] + history) + [m];
    if m.role == System {
      TrimTwice(Others(history), maxRounds);
      assert kept + [] == kept && Others(history) + [] == Others(history);
    } else {
      TrimIsIncremental(Others(history), m, maxRounds);
      assert systems + [] == systems;
    }
  }

  lemma TrimTwice(others: seq<Message>, maxRounds: int)
    ensures Trimmed(Trimmed(others, maxRounds), maxRounds) == Trimmed(others, maxRounds)
  {
    AfterUserIsSuffix(others, Users(others) - maxRounds);
  }

  /** The window keeps the last `maxRounds` user messages, or all when there are no more or the limit is negative. */
  lemma WindowSize(others: seq<Message>, maxRounds: int)
    ensures Users(Trimmed(others, maxRounds)) == if 0 <= maxRounds < Users(others) then maxRounds else Users(others)
    ensures |Trimmed(others, maxRounds)| <= |others|
    ensures Trimmed(others, maxRounds) == others[|others| - |Trimmed(others, maxRounds)|..]
  {
    AfterUserIsSuffix(others, Users(others) - maxRounds);
  }
}
