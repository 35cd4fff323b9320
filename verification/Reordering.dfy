/** Settlement attempts commute across reservations: what a batch of commits and releases leaves
    behind depends only on each reservation's own attempts, and there only on the first effective one. */
module Reordering {
  import opened Redis

  /** One run of the commit or release script: what was asked, the date read before, and when it ran. */
  datatype Attempt = Attempt(st: Settlement, stamp: Stamp, at: nat)

  function Try(s: Store, a: Attempt): Store { Settle(s, a.st, a.stamp, a.at) }

  function TryAll(s: Store, xs: seq<Attempt>): Store
    decreases |xs|
  {
    if xs == [] then s else TryAll(Try(s, xs[0]), xs[1..])
  }

  /** The attempts on one reservation, in their order. */
  function Of(xs: seq<Attempt>, r: ResId): seq<Attempt> {
    if xs == [] then [] else (if xs[0].st.res == r then [xs[0]] else []) + Of(xs[1..], r)
  }

  lemma PayBacksCommute(m: map<UserId, int>, h: Hold, st: Settlement, h': Hold, st': Settlement)
    ensures PayBack(PayBack(m, h, st), h', st') == PayBack(PayBack(m, h', st'), h, st)
  {
  }

  lemma ReconcileBudgetsCommute(m: map<Day, Counter>, h: Hold, st: Settlement, h': Hold, st': Settlement)
    ensures ReconcileBudget(ReconcileBudget(m, h, st), h', st') == ReconcileBudget(ReconcileBudget(m, h', st'), h, st)
  {
  }

  /** An attempt leaves every other reservation as it was. */
  lemma TryLeavesOthers(s: Store, a: Attempt, b: Attempt)
    requires a.st.res != b.st.res
    ensures Judge(Try(s, a), b.st, b.stamp) == Judge(s, b.st, b.stamp)
    ensures b.st.res in s.holds ==> b.st.res in Try(s, a).holds && Try(s, a).holds[b.st.res] == s.holds[b.st.res]
  {
  }

  lemma TriesCommute(s: Store, a: Attempt, b: Attempt)
    requires a.st.res != b.st.res
    ensures Try(Try(s, a), b) == Try(Try(s, b), a)
  {
    hide PayBack, ReconcileBudget, Close;
    TryLeavesOthers(s, a, b);
    TryLeavesOthers(s, b, a);
    if Judge(s, a.st, a.stamp) == Effective && Judge(s, b.st, b.stamp) == Effective {
      PayBacksCommute(s.balances, s.holds[a.st.res], a.st, s.holds[b.st.res], b.st);
      ReconcileBudgetsCommute(s.budget, s.holds[a.st.res], a.st, s.holds[b.st.res], b.st);
      assert Try(Try(s, a), b).holds == Try(Try(s, b), a).holds;
    }
  }

  lemma {:induction false} TryAllConcat(s: Store, xs: seq<Attempt>, ys: seq<Attempt>)
    ensures TryAll(s, xs + ys) == TryAll(TryAll(s, xs), ys)
    decreases |xs|
  {
    if xs == [] {
      assert xs + ys == ys;
    } else {
      TryAllConcat(Try(s, xs[0]), xs[1..], ys);
      assert (xs + ys)[1..] == xs[1..] + ys;
    }
  }

  /** An attempt may be moved before any attempts on other reservations. */
  lemma {:induction false} MoveToFront(s: Store, xs: seq<Attempt>, a: Attempt)
    requires forall x | x in xs :: x.st.res != a.st.res
    ensures TryAll(s, xs + [a]) == TryAll(s, [a] + xs)
    decreases |xs|
  {
    assert ([a] + xs)[1..] == xs;
    if xs == [] {
      assert xs + [a] == [a] + xs;
    } else {
      assert (xs + [a])[1..] == xs[1..] + [a];
      MoveToFront(Try(s, xs[0]), xs[1..], a);
      assert ([a] + xs[1..])[1..] == xs[1..];
      TriesCommute(s, xs[0], a);
    }
  }

  lemma {:induction false} OfConcat(xs: seq<Attempt>, ys: seq<Attempt>, r: ResId)
    ensures Of(xs + ys, r) == Of(xs, r) + Of(ys, r)
    decreases |xs|
  {
    if xs == [] {
      assert xs + ys == ys;
    } else {
      OfConcat(xs[1..], ys, r);
      assert (xs + ys)[1..] == xs[1..] + ys;
    }
  }

  /** Cut a list at its first attempt on r. */
  lemma {:induction false} CutAtFirst(ys: seq<Attempt>, r: ResId) returns (k: nat)
    requires Of(ys, r) != []
    ensures k < |ys| && ys[k] == Of(ys, r)[0] && Of(ys[..k], r) == []
    ensures forall x | x in ys[..k] :: x.st.res != r
    decreases |ys|
  {
    if ys[0].st.res == r {
      k := 0;
    } else {
      k := CutAtFirst(ys[1..], r);
      assert ys[..k + 1][1..] == ys[1..][..k];
      assert ys[..k + 1] == [ys[0]] + ys[1..][..k];
      k := k + 1;
    }
  }

  lemma {:induction false} OfNone(ys: seq<Attempt>)
    requires forall r :: Of(ys, r) == []
    ensures ys == []
  {
    if ys != [] {
      assert Of(ys, ys[0].st.res) == [ys[0]] + Of(ys[1..], ys[0].st.res);
    }
  }

  lemma DropFirst(xs: seq<Attempt>, before: seq<Attempt>, after: seq<Attempt>, a: Attempt, r: ResId)
    requires xs != [] && xs[0] == a
    requires Of(xs, r) == Of((before + [a]) + after, r) && Of(before, a.st.res) == []
    ensures Of(xs[1..], r) == Of(before + after, r)
  {
    OfConcat(before + [a], after, r);
    OfConcat(before, [a], r);
    OfConcat(before, after, r);
    assert [a][1..] == [];
    assert Of([a], r) == if a.st.res == r then [a] else [];
    if a.st.res == r {
      assert Of(xs, r) == [a] + Of(xs[1..], r) == [a] + Of(after, r);
      assert ([a] + Of(xs[1..], r))[1..] == Of(xs[1..], r);
      assert ([a] + Of(after, r))[1..] == Of(after, r);
    } else {
      assert Of(before + [a], r) == Of(before, r);
      assert Of(xs, r) == Of(xs[1..], r);
    }
  }

  /** Two orders of the same attempts that agree on each reservation's own order leave the same store. */
  lemma {:induction false} OrderIsIrrelevant(s: Store, xs: seq<Attempt>, ys: seq<Attempt>)
    requires forall r :: Of(xs, r) == Of(ys, r)
    ensures TryAll(s, xs) == TryAll(s, ys)
    decreases |xs|
  {
    if xs == [] {
      forall r ensures Of(ys, r) == [] { assert Of(xs, r) == []; }
      OfNone(ys);
    } else {
      var a := xs[0];
      assert Of(xs, a.st.res) == [a] + Of(xs[1..], a.st.res);
      var k := CutAtFirst(ys, a.st.res);
      var before, after := ys[..k], ys[k + 1..];
      assert ys[k] == a;
      assert ys == (before + [a]) + after;
      MoveToFront(s, before, a);
      TryAllConcat(s, before + [a], after);
      TryAllConcat(s, [a] + before, after);
      assert ([a] + before) + after == [a] + (before + after);
      assert ([a] + (before + after))[1..] == before + after;
      forall r ensures Of(xs[1..], r) == Of(before + after, r) {
        DropFirst(xs, before, after, a, r);
      }
      OrderIsIrrelevant(Try(s, a), xs[1..], before + after);
    }
  }

  /** The attempts that have an effect when the list is run from s. */
  function Winners(s: Store, xs: seq<Attempt>): seq<Attempt>
    decreases |xs|
  {
    if xs == [] then [] else
    (if Judge(s, xs[0].st, xs[0].stamp) == Effective then [xs[0]] else []) + Winners(Try(s, xs[0]), xs[1..])
  }

  /** A reservation that is not live has no winner. */
  lemma {:induction false} NoWinnerOnceSettled(s: Store, xs: seq<Attempt>, r: ResId)
    requires !Live(s, r)
    ensures Of(Winners(s, xs), r) == []
    decreases |xs|
  {
    if xs != [] {
      var s' := Try(s, xs[0]);
      NoWinnerOnceSettled(s', xs[1..], r);
      OfConcat(if Judge(s, xs[0].st, xs[0].stamp) == Effective then [xs[0]] else [], Winners(s', xs[1..]), r);
    }
  }

  /** a is the first of the attempts that would have an effect on s. */
  ghost predicate FirstEffective(s: Store, own: seq<Attempt>, a: Attempt) {
    exists k :: 0 <= k < |own| && own[k] == a && Judge(s, a.st, a.stamp) == Effective
      && (forall i | 0 <= i < k :: Judge(s, own[i].st, own[i].stamp) != Effective)
  }

  lemma FirstEffectiveLater(s: Store, a: Attempt, rest: seq<Attempt>, w: Attempt)
    requires Judge(s, a.st, a.stamp) != Effective && FirstEffective(s, rest, w)
    ensures FirstEffective(s, [a] + rest, w)
  {
    var k :| 0 <= k < |rest| && rest[k] == w && Judge(s, w.st, w.stamp) == Effective
             && (forall i | 0 <= i < k :: Judge(s, rest[i].st, rest[i].stamp) != Effective);
    assert ([a] + rest)[k + 1] == w;
  }

  /** Attempts on another reservation do not change which attempt is first to have an effect. */
  lemma FirstEffectiveElsewhere(s: Store, a: Attempt, own: seq<Attempt>)
    requires forall b | b in own :: b.st.res != a.st.res
    ensures forall b | b in own :: Judge(Try(s, a), b.st, b.stamp) == Judge(s, b.st, b.stamp)
    ensures forall w | w in own :: FirstEffective(Try(s, a), own, w) ==> FirstEffective(s, own, w)
  {
  }

  /** Of all attempts on a reservation at most one has an effect: the first that finds it live with its date. */
  lemma {:induction false} FirstWins(s: Store, xs: seq<Attempt>, r: ResId)
    ensures var w := Of(Winners(s, xs), r); var own := Of(xs, r);
            && |w| <= 1
            && (w == [] <==> forall a | a in own :: Judge(s, a.st, a.stamp) != Effective)
            && (w != [] ==> w[0] in own && FirstEffective(s, own, w[0]))
    decreases |xs|
  {
    hide Judge, Try, FirstEffective, Of, Winners;
    if xs == [] {
      WinnersStep(s, xs, r);
    } else {
      var a, s', rest := xs[0], Try(s, xs[0]), Of(xs[1..], r);
      WinnersStep(s, xs, r);
      FirstWins(s', xs[1..], r);
      OfIsAbout(xs[1..], r);
      if a.st.res != r {
        FirstEffectiveElsewhere(s, a, rest);
      } else if Judge(s, a.st, a.stamp) == Effective {
        WinnerSettles(s, a);
        NoWinnerOnceSettled(s', xs[1..], r);
        WinnerIsFirst(s, a, rest);
      } else {
        LoserLeaves(s, a);
        var w := Of(Winners(s, xs), r);
        if w != [] {
          FirstEffectiveLater(s, a, rest, w[0]);
        }
      }
    }
  }

  /** One attempt more at the front. */
  lemma WinnersStep(s: Store, xs: seq<Attempt>, r: ResId)
    ensures xs == [] ==> Of(xs, r) == [] && Of(Winners(s, xs), r) == []
    ensures xs != [] ==>
              var a := xs[0]; var later := Of(Winners(Try(s, a), xs[1..]), r);
              && Of(xs, r) == (if a.st.res == r then [a] + Of(xs[1..], r) else Of(xs[1..], r))
              && Of(Winners(s, xs), r)
                 == (if a.st.res == r && Judge(s, a.st, a.stamp) == Effective then [a] + later else later)
  {
    if xs != [] {
      var first := if Judge(s, xs[0].st, xs[0].stamp) == Effective then [xs[0]] else [];
      OfConcat(first, Winners(Try(s, xs[0]), xs[1..]), r);
      assert [xs[0]][1..] == [];
    }
  }

  lemma WinnerSettles(s: Store, a: Attempt)
    requires Judge(s, a.st, a.stamp) == Effective
    ensures !Live(Try(s, a), a.st.res)
  {
  }

  lemma LoserLeaves(s: Store, a: Attempt)
    requires Judge(s, a.st, a.stamp) != Effective
    ensures Try(s, a) == s
  {
  }

  lemma WinnerIsFirst(s: Store, a: Attempt, rest: seq<Attempt>)
    requires Judge(s, a.st, a.stamp) == Effective
    ensures FirstEffective(s, [a] + rest, a)
  {
    assert ([a] + rest)[0] == a;
  }

  lemma {:induction false} OfIsAbout(xs: seq<Attempt>, r: ResId)
    ensures forall a | a in Of(xs, r) :: a in xs && a.st.res == r
    decreases |xs|
  {
    if xs != [] {
      OfIsAbout(xs[1..], r);
    }
  }

  /** Running everything is running the winners. */
  lemma {:induction false} OnlyWinnersCount(s: Store, xs: seq<Attempt>)
    ensures TryAll(s, xs) == TryAll(s, Winners(s, xs))
    decreases |xs|
  {
    if xs != [] {
      OnlyWinnersCount(Try(s, xs[0]), xs[1..]);
      var w := Winners(Try(s, xs[0]), xs[1..]);
      if Judge(s, xs[0].st, xs[0].stamp) == Effective {
        assert ([xs[0]] + w)[1..] == w;
      } else {
        SettleRefused(s, xs[0].st, xs[0].stamp, xs[0].at);
        assert [] + w == w;
      }
    }
  }

  lemma {:induction false} OfAbsent(xs: seq<Attempt>, r: ResId)
    requires forall x | x in xs :: x.st.res != r
    ensures Of(xs, r) == []
    decreases |xs|
  {
    if xs != [] {
      OfAbsent(xs[1..], r);
    }
  }

  lemma {:induction false} OfDistinct(xs: seq<Attempt>, r: ResId)
    requires forall i, j | 0 <= i < j < |xs| :: xs[i].st.res != xs[j].st.res
    ensures |Of(xs, r)| <= 1
    decreases |xs|
  {
    if xs != [] {
      OfDistinct(xs[1..], r);
      if xs[0].st.res == r {
        OfAbsent(xs[1..], r);
      }
    }
  }

  lemma {:induction false} OfCounts(xs: seq<Attempt>, r: ResId, a: Attempt)
    ensures multiset(Of(xs, r))[a] == if a.st.res == r then multiset(xs)[a] else 0
    decreases |xs|
  {
    if xs != [] {
      OfCounts(xs[1..], r, a);
      assert xs == [xs[0]] + xs[1..];
    }
  }

  lemma SmallMultisets<T>(a: seq<T>, b: seq<T>)
    requires multiset(a) == multiset(b) && |a| <= 1
    ensures a == b
  {
    assert |a| == |multiset(a)| == |b|;
    if |a| == 1 {
      assert b[0] in multiset(a);
    }
  }

  /** Settlements of different reservations leave the same store in every order. */
  lemma AnyPermutation(s: Store, xs: seq<Attempt>, ys: seq<Attempt>)
    requires multiset(xs) == multiset(ys)
    requires forall i, j | 0 <= i < j < |xs| :: xs[i].st.res != xs[j].st.res
    ensures TryAll(s, xs) == TryAll(s, ys)
  {
    forall r ensures Of(xs, r) == Of(ys, r) {
      forall a ensures multiset(Of(xs, r))[a] == multiset(Of(ys, r))[a] {
        OfCounts(xs, r, a);
        OfCounts(ys, r, a);
      }
      OfDistinct(xs, r);
      SmallMultisets(Of(xs, r), Of(ys, r));
    }
    OrderIsIrrelevant(s, xs, ys);
  }
}
