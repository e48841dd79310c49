/**
 * What ps_subs_count counts: the visible subscriptions along the walk, without the root.
 * When that is the number of subscribers of the topic, and when it is the number of
 * subscribers a recursive publish to the topic meets.
 */
module BrokerSubsCounts {
  import opened Registry
  import opened Topics
  import opened BrokerModel
  import opened BrokerDelivery

  // ----- the subscribers of the topic itself -----

  lemma CountUnfold(ts: seq<Topic>, t: string)
    ensures SubsCount(ts, t) == if t == "" then 0 else Visible(SubscribersAt(ts, t)) + SubsCount(ts, Parent(t))
  {
  }

  /** Nobody is visible at `a`, the root aside. */
  predicate Unseen(ts: seq<Topic>, a: string) {
    a == "" || Visible(SubscribersAt(ts, a)) == 0
  }

  lemma {:induction false} CountIsZeroIff(ts: seq<Topic>, t: string)
    ensures SubsCount(ts, t) == 0 <==> forall a :: Covers(a, t) ==> Unseen(ts, a)
    decreases |t|
  {
    hide Visible, SubscribersAt, Covers;
    CountUnfold(ts, t);
    if t == "" {
      forall a | Covers(a, t) ensures Unseen(ts, a) {
        CoversRoot(a);
      }
    } else {
      CountIsZeroIff(ts, Parent(t));
      CoversItself(t);
      forall a ensures Covers(a, t) && a != t <==> Covers(a, Parent(t)) {
        ParentCovers(a, t);
      }
      if SubsCount(ts, t) != 0 && Visible(SubscribersAt(ts, t)) == 0 {
        var a :| Covers(a, Parent(t)) && !Unseen(ts, a);
        assert Covers(a, t);
      }
    }
  }

  lemma CoversRoot(a: string)
    requires Covers(a, "")
    ensures a == ""
  {
  }

  lemma CoversItself(t: string)
    ensures Covers(t, t)
  {
  }

  /**
   * ps_subs_count is the number of visible subscribers of the topic, each of which subscribes
   * to it once, if and only if nobody visible subscribes to a proper ancestor other than the
   * root; at the root itself, if and only if nobody visible subscribes to it.
   */
  lemma SubsCountIsOfTopicIff(ts: seq<Topic>, t: string)
    ensures SubsCount(ts, t) == Visible(SubscribersAt(ts, t)) <==>
      if t == "" then Visible(SubscribersAt(ts, "")) == 0
      else forall a :: Covers(a, t) && a != t ==> Unseen(ts, a)
  {
    hide Visible, SubscribersAt, Covers, Unseen;
    CountUnfold(ts, t);
    if t != "" {
      CountIsZeroIff(ts, Parent(t));
      forall a ensures Covers(a, t) && a != t <==> Covers(a, Parent(t)) {
        ParentCovers(a, t);
      }
    }
  }

  // ----- the subscribers a publish meets -----

  /** How many of the first `n` subscribers are visible in `l`. */
  function Reached(l: seq<Subscription>, n: nat): nat {
    if n == 0 then 0 else Reached(l, n - 1) + if Visible(Mine(l, n - 1)) > 0 then 1 else 0
  }

  /** The visible subscriptions beyond the first of each subscriber. */
  function Repeats(l: seq<Subscription>, n: nat): nat {
    if n == 0 then 0 else
      Repeats(l, n - 1) + if Visible(Mine(l, n - 1)) > 0 then Visible(Mine(l, n - 1)) - 1 else 0
  }

  function SumVisible(l: seq<Subscription>, n: nat): nat {
    if n == 0 then 0 else SumVisible(l, n - 1) + Visible(Mine(l, n - 1))
  }

  lemma {:induction false} SumCons(x: Subscription, l: seq<Subscription>, n: nat)
    ensures SumVisible([x] + l, n) == SumVisible(l, n) + (if x.su < n && !x.hidden then 1 else 0)
  {
    hide Visible, Mine;
    if n > 0 {
      SumCons(x, l, n - 1);
      MineCons(x, l, n - 1);
      VisibleConcat(if x.su == n - 1 then [x] else [], Mine(l, n - 1));
      VisibleFew(x);
    }
  }

  lemma VisibleFew(x: Subscription)
    ensures Visible([x]) == (if x.hidden then 0 else 1) && Visible([]) == 0
  {
  }

  lemma {:induction false} NobodySummed(n: nat)
    ensures SumVisible([], n) == 0
  {
    if n > 0 {
      NobodySummed(n - 1);
    }
  }

  lemma {:induction false} VisibleIsSum(l: seq<Subscription>, n: nat)
    requires InRange(l, n)
    ensures Visible(l) == SumVisible(l, n)
    decreases |l|
  {
    hide SumVisible, Mine;
    if l == [] {
      NobodySummed(n);
    } else {
      VisibleIsSum(l[1..], n);
      SumCons(l[0], l[1..], n);
      assert l == [l[0]] + l[1..];
    }
  }

  lemma {:induction false} SumSplits(l: seq<Subscription>, n: nat)
    ensures SumVisible(l, n) == Reached(l, n) + Repeats(l, n)
  {
    hide Visible, Mine;
    if n > 0 {
      SumSplits(l, n - 1);
    }
  }

  /**
   * ps_subs_count plus the visible subscriptions at the root is the number of subscribers
   * visible to a recursive publish plus their repeated subscriptions; so the count is that
   * number if and only if there are as many repeats as visible subscriptions at the root.
   */
  lemma SubsCountIsReachedIff(ts: seq<Topic>, t: string, n: nat)
    requires InRange(Targets(ts, t, true), n)
    ensures var l, root := Targets(ts, t, true), Visible(SubscribersAt(ts, ""));
      && SubsCount(ts, t) + root == Reached(l, n) + Repeats(l, n)
      && (SubsCount(ts, t) == Reached(l, n) <==> Repeats(l, n) == root)
  {
    hide Targets, Visible, SumVisible, Reached, Repeats, SubsCount;
    VisibleTargets(ts, t, true);
    VisibleIsSum(Targets(ts, t, true), n);
    SumSplits(Targets(ts, t, true), n);
  }
}
