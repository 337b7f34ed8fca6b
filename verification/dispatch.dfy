/** Keyword dispatch as data: an ordered table of (keyword test, outcome) rules,
    evaluated in priority order, where the first rule whose test holds decides.
    The router's if/else ladders are proved equal to such tables. */
module Dispatch {
  import opened Text

  /** A keyword test on a lower-cased command. */
  datatype Guard =
    | AnyOf(words: seq<string>)   // at least one word occurs
    | AllOf(words: seq<string>)   // every word occurs

  predicate Holds(g: Guard, s: string) {
    match g
    case AnyOf(ws) => exists k :: 0 <= k < |ws| && Includes(s, ws[k])
    case AllOf(ws) => forall k :: 0 <= k < |ws| ==> Includes(s, ws[k])
  }

  /** A test on one word holds when the word occurs. */
  lemma HoldsOne(s: string, w: string)
    ensures Holds(AnyOf([w]), s) <==> Includes(s, w)
  {
    assert [w][0] == w;
  }

  /** A test on either of two words holds when one of them occurs. */
  lemma HoldsEither(s: string, w1: string, w2: string)
    ensures Holds(AnyOf([w1, w2]), s) <==> Includes(s, w1) || Includes(s, w2)
  {
    assert [w1, w2][0] == w1 && [w1, w2][1] == w2;
  }

  /** A test on both of two words holds when both occur. */
  lemma HoldsBoth(s: string, w1: string, w2: string)
    ensures Holds(AllOf([w1, w2]), s) <==> Includes(s, w1) && Includes(s, w2)
  {
    assert [w1, w2][0] == w1 && [w1, w2][1] == w2;
  }

  datatype Rule<B> = Rule(guard: Guard, outcome: B)

  /** The outcome of the first rule whose guard holds, or `otherwise` if none does. */
  function FirstMatch<B>(rules: seq<Rule<B>>, s: string, otherwise: B): (b: B)
    decreases |rules|
  {
    if |rules| == 0 then otherwise
    else if Holds(rules[0].guard, s) then rules[0].outcome
    else FirstMatch(rules[1..], s, otherwise)
  }

  /** No rule before index `k` fires on `s`. */
  predicate NoneBefore<B>(rules: seq<Rule<B>>, s: string, k: int)
    requires k <= |rules|
  {
    forall j :: 0 <= j < k ==> !Holds(rules[j].guard, s)
  }

  /** The outcomes are pairwise distinct and differ from the default, so an outcome
      names the rule that produced it. */
  ghost predicate Distinct<B>(rules: seq<Rule<B>>, otherwise: B) {
    && (forall j :: 0 <= j < |rules| ==> rules[j].outcome != otherwise)
    && (forall i, j :: 0 <= i < j < |rules| ==> rules[i].outcome != rules[j].outcome)
  }

  /** The earliest rule that fires decides. */
  lemma {:induction false} FirstMatchPicksEarliest<B>(rules: seq<Rule<B>>, s: string, otherwise: B, k: nat)
    requires k < |rules| && Holds(rules[k].guard, s)
    requires NoneBefore(rules, s, k)
    ensures FirstMatch(rules, s, otherwise) == rules[k].outcome
    decreases k
  {
    if k > 0 {
      assert !Holds(rules[0].guard, s);
      assert NoneBefore(rules[1..], s, k - 1) by {
        forall j | 0 <= j < k - 1 ensures !Holds(rules[1..][j].guard, s) {
          assert rules[1..][j] == rules[j + 1];
        }
      }
      FirstMatchPicksEarliest(rules[1..], s, otherwise, k - 1);
    }
  }

  /** When no rule fires, the default decides. */
  lemma {:induction false} FirstMatchDefault<B>(rules: seq<Rule<B>>, s: string, otherwise: B)
    requires NoneBefore(rules, s, |rules|)
    ensures FirstMatch(rules, s, otherwise) == otherwise
    decreases |rules|
  {
    if |rules| > 0 {
      assert NoneBefore(rules[1..], s, |rules| - 1) by {
        forall j | 0 <= j < |rules| - 1 ensures !Holds(rules[1..][j].guard, s) {
          assert rules[1..][j] == rules[j + 1];
        }
      }
      FirstMatchDefault(rules[1..], s, otherwise);
    }
  }

  /** The result is the default or the outcome of a rule that fires. */
  lemma {:induction false} FirstMatchIsSomeOutcome<B>(rules: seq<Rule<B>>, s: string, otherwise: B)
    ensures var r := FirstMatch(rules, s, otherwise);
      r == otherwise || exists j :: 0 <= j < |rules| && Holds(rules[j].guard, s) && r == rules[j].outcome
    decreases |rules|
  {
    if |rules| > 0 && !Holds(rules[0].guard, s) {
      FirstMatchIsSomeOutcome(rules[1..], s, otherwise);
      var r := FirstMatch(rules, s, otherwise);
      if r != otherwise {
        var j :| 0 <= j < |rules| - 1 && Holds(rules[1..][j].guard, s) && r == rules[1..][j].outcome;
        assert rules[1..][j] == rules[j + 1];
      }
    }
  }

  /** Conversely, with distinct outcomes, getting rule `k`'s outcome means rule `k` fired
      and no earlier rule did. */
  lemma {:induction false} FirstMatchOnlyAt<B>(rules: seq<Rule<B>>, s: string, otherwise: B, k: nat)
    requires k < |rules| && Distinct(rules, otherwise)
    requires FirstMatch(rules, s, otherwise) == rules[k].outcome
    ensures Holds(rules[k].guard, s) && NoneBefore(rules, s, k)
    decreases |rules|
  {
    if Holds(rules[0].guard, s) {
      assert rules[0].outcome == rules[k].outcome;
    } else {
      var tail := rules[1..];
      assert k > 0 by {
        FirstMatchIsSomeOutcome(tail, s, otherwise);
        forall j | 0 <= j < |tail| ensures tail[j].outcome != rules[0].outcome {
          assert tail[j] == rules[j + 1];
        }
      }
      assert Distinct(tail, otherwise) by {
        forall i, j | 0 <= i < j < |tail| ensures tail[i].outcome != tail[j].outcome {
          assert tail[i] == rules[i + 1] && tail[j] == rules[j + 1];
        }
      }
      assert tail[k - 1] == rules[k];
      FirstMatchOnlyAt(tail, s, otherwise, k - 1);
      forall j | 0 <= j < k ensures !Holds(rules[j].guard, s) {
        if j > 0 { assert rules[j] == tail[j - 1]; }
      }
    }
  }

  /** With distinct outcomes, the default comes out exactly when no rule fires. */
  lemma {:induction false} FirstMatchDefaultOnlyIfNone<B>(rules: seq<Rule<B>>, s: string, otherwise: B)
    requires Distinct(rules, otherwise)
    ensures FirstMatch(rules, s, otherwise) == otherwise <==> NoneBefore(rules, s, |rules|)
    decreases |rules|
  {
    if |rules| > 0 && !Holds(rules[0].guard, s) {
      var tail := rules[1..];
      assert Distinct(tail, otherwise) by {
        forall i, j | 0 <= i < j < |tail| ensures tail[i].outcome != tail[j].outcome {
          assert tail[i] == rules[i + 1] && tail[j] == rules[j + 1];
        }
      }
      FirstMatchDefaultOnlyIfNone(tail, s, otherwise);
      assert NoneBefore(rules, s, |rules|) <==> NoneBefore(tail, s, |tail|) by {
        forall j | 0 < j < |rules| ensures rules[j] == tail[j - 1] { }
      }
    }
  }
}
