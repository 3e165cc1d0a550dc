/**
 The history budget of src/server.rs: the gateway sends the newest messages whose encoded sizes fit, and always at
 least one. The size of a record is a parameter here; Frames gives it its meaning in bytes of JSON.
 */
module HistoryFitting {

  const HISTORY_FRAME_BUDGET := 12 * 1024
  const FRAME_OVERHEAD := 512

  function TotalSize<T>(size: T -> nat, history: seq<T>): nat {
    if history == [] then 0 else size(history[0]) + TotalSize(size, history[1..])
  }

  predicate WithinBudget<T>(size: T -> nat, history: seq<T>) {
    |history| <= 1 || FRAME_OVERHEAD + TotalSize(size, history) <= HISTORY_FRAME_BUDGET
  }

  /** The longest suffix within the budget: drop the oldest message until the rest fits or one is left. */
  function Fitted<T>(size: T -> nat, history: seq<T>): seq<T> {
    if WithinBudget(size, history) then history else Fitted(size, history[1..])
  }

  function Reversed<T>(s: seq<T>): seq<T> {
    if s == [] then [] else Reversed(s[1..]) + [s[0]]
  }

  lemma {:induction false} ReversedPush<T>(s: seq<T>, x: T)
    ensures Reversed(s + [x]) == [x] + Reversed(s)
  {
    if s == [] {
      assert s + [x] == [x];
    } else {
      assert (s + [x])[1..] == s[1..] + [x];
      ReversedPush(s[1..], x);
    }
  }

  /** Longer suffixes are at least as large. */
  lemma {:induction false} SuffixGrows<T>(size: T -> nat, history: seq<T>, i: nat, j: nat)
    requires i <= j <= |history|
    ensures TotalSize(size, history[j..]) <= TotalSize(size, history[i..])
    decreases j - i
  {
    if i < j {
      assert history[i..][1..] == history[i + 1..];
      SuffixGrows(size, history, i + 1, j);
    }
  }

  /** A suffix within the budget, all longer ones beyond it, is what `Fitted` selects. */
  lemma {:induction false} FittedAt<T>(size: T -> nat, history: seq<T>, i: nat)
    requires i <= |history|
    requires WithinBudget(size, history[i..])
    requires forall j :: 0 <= j < i ==> !WithinBudget(size, history[j..])
    ensures Fitted(size, history) == history[i..]
    decreases |history|
  {
    assert history[0..] == history;
    if i > 0 {
      assert !WithinBudget(size, history[0..]);
      var rest := history[1..];
      assert rest[i - 1..] == history[i..];
      forall j | 0 <= j < i - 1 ensures !WithinBudget(size, rest[j..]) {
        assert rest[j..] == history[j + 1..];
      }
      FittedAt(size, rest, i - 1);
    }
  }

  /** One more message costs its size; when that breaks the budget, the current suffix is the longest. */
  lemma OneMore<T>(size: T -> nat, history: seq<T>, i: nat)
    requires 0 < i <= |history|
    ensures TotalSize(size, history[i - 1..]) == size(history[i - 1]) + TotalSize(size, history[i..])
    ensures i < |history| && WithinBudget(size, history[i..]) && !WithinBudget(size, history[i - 1..]) ==>
              Fitted(size, history) == history[i..]
  {
    assert history[i - 1..][1..] == history[i..];
    if i < |history| && WithinBudget(size, history[i..]) && !WithinBudget(size, history[i - 1..]) {
      forall j | 0 <= j < i ensures !WithinBudget(size, history[j..]) {
        SuffixGrows(size, history, j, i - 1);
      }
      FittedAt(size, history, i);
    }
  }

  /** The greedy pass from the newest message backwards finds the longest fitting suffix. */
  method FitToBudget<T>(size: T -> nat, history: seq<T>) returns (fitted: seq<T>)
    ensures fitted == Fitted(size, history)
  {
    var used := FRAME_OVERHEAD;
    var selected: seq<T> := [];
    var i := |history|;
    while i > 0
      invariant 0 <= i <= |history|
      invariant Reversed(selected) == history[i..] && |selected| == |history| - i
      invariant used == FRAME_OVERHEAD + TotalSize(size, history[i..])
      invariant WithinBudget(size, history[i..])
    {
      var message := history[i - 1];
      var bytes := size(message);
      OneMore(size, history, i);
      if selected != [] && used + bytes > HISTORY_FRAME_BUDGET {
        return Reversed(selected);
      }
      used := used + bytes;
      ReversedPush(selected, message);
      selected := selected + [message];
      i := i - 1;
    }
    assert history[0..] == history;
    return Reversed(selected);
  }

  /** What fitting means: a suffix within the budget, never empty for a non-empty history, and no longer one fits. */
  lemma {:induction false} FittedIsTheLongestFittingSuffix<T>(size: T -> nat, history: seq<T>)
    ensures var fitted := Fitted(size, history);
            var start := |history| - |fitted|;
            && start >= 0 && fitted == history[start..]
            && WithinBudget(size, fitted)
            && (history != [] ==> fitted != [])
            && forall j :: 0 <= j < start ==>
              |history[j..]| > 1 && FRAME_OVERHEAD + TotalSize(size, history[j..]) > HISTORY_FRAME_BUDGET
  {
    if !WithinBudget(size, history) {
      FittedIsTheLongestFittingSuffix(size, history[1..]);
      var rest := history[1..];
      var start := |history| - |Fitted(size, history)|;
      assert rest[start - 1..] == history[start..];
      forall j | 0 <= j < start ensures !WithinBudget(size, history[j..]) {
        if j == 0 {
          assert history[0..] == history;
        } else {
          assert rest[j - 1..] == history[j..];
        }
      }
    } else {
      assert history[0..] == history;
    }
  }

  /** The fitted messages together take the budget at most, or what one message may take. */
  lemma FittedTotal<T>(size: T -> nat, history: seq<T>, one: nat)
    requires forall i :: 0 <= i < |history| ==> size(history[i]) <= one
    requires HISTORY_FRAME_BUDGET - FRAME_OVERHEAD <= one
    ensures TotalSize(size, Fitted(size, history)) <= one
    ensures |Fitted(size, history)| <= |history|
  {
  }
}
