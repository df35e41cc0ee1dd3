/**
 The relevance ranker: build the query from persona role and task, score
 every collected span against it, attach each score to the span at the
 same index, and return the spans sorted by score, highest first, keeping
 equal-score spans in collection order (a stable descending sort).

 The scoring itself (TF-IDF vectorisation and cosine similarity) is a
 library computation and is not modelled: it is the parameter
 `similarity`, applied to the query and the span texts. Scores are reals
 standing for an arbitrary totally ordered key.
 */
module Ranking {
  import opened Records

  /** The scorer: given the query and the span texts, one score per text. */
  type Similarity = (string, seq<string>) -> seq<real>

  /** The query is the role and the task joined by one space; both can be
      read back from it. */
  function Query(role: string, task: string): (q: string)
    ensures |q| == |role| + 1 + |task|
    ensures q[..|role|] == role && q[|role|] == ' ' && q[|role| + 1..] == task
  {
    role + " " + task
  }

  /** The text of every span, in order. */
  function Texts(items: seq<Item>): (r: seq<string>)
    ensures |r| == |items|
    ensures forall k :: 0 <= k < |items| ==> r[k] == items[k].part.text
  {
    if |items| == 0 then [] else [items[0].part.text] + Texts(items[1..])
  }

  /** Score attachment: span `k` receives score `k` and nothing else about
      it changes. */
  function Attach(items: seq<Item>, scores: seq<real>): (r: seq<ScoredItem>)
    requires |scores| == |items|
    ensures |r| == |items|
    ensures forall k :: 0 <= k < |r| ==> r[k].item == items[k] && r[k].score == scores[k]
  {
    if |items| == 0 then []
    else [ScoredItem(items[0], scores[0])] + Attach(items[1..], scores[1..])
  }

  /** The spans without their scores. */
  function Unscored(s: seq<ScoredItem>): (r: seq<Item>)
    ensures |r| == |s|
  {
    if |s| == 0 then [] else [s[0].item] + Unscored(s[1..])
  }

  lemma {:induction false} UnscoredAt(s: seq<ScoredItem>)
    ensures forall k :: 0 <= k < |s| ==> Unscored(s)[k] == s[k].item
  {
    if |s| > 0 {
      UnscoredAt(s[1..]);
    }
  }

  /** The scores alone. */
  function Scores(s: seq<ScoredItem>): (r: seq<real>)
    ensures |r| == |s|
    ensures forall k :: 0 <= k < |s| ==> r[k] == s[k].score
  {
    if |s| == 0 then [] else [s[0].score] + Scores(s[1..])
  }

  /** Attaching scores loses nothing: both the spans and the scores can be
      read back. */
  lemma AttachRoundTrip(items: seq<Item>, scores: seq<real>)
    requires |scores| == |items|
    ensures Unscored(Attach(items, scores)) == items
    ensures Scores(Attach(items, scores)) == scores
  {
    UnscoredAt(Attach(items, scores));
  }

  /** Scores never increase from one position to a later one. */
  predicate SortedDesc(s: seq<ScoredItem>) {
    forall i, j :: 0 <= i < j < |s| ==> s[i].score >= s[j].score
  }

  /** The entries of `s` whose score is `v`, in their order in `s`. Two
      sequences agree on this for every `v` exactly when each group of
      equal-score entries appears in the same relative order in both. */
  function WithScore(s: seq<ScoredItem>, v: real): seq<ScoredItem>
  {
    if |s| == 0 then []
    else (if s[0].score == v then [s[0]] else []) + WithScore(s[1..], v)
  }

  /** `WithScore` only picks entries of `s` that score `v`. */
  lemma {:induction false} WithScoreMembers(s: seq<ScoredItem>, v: real)
    ensures forall k :: 0 <= k < |WithScore(s, v)| ==> WithScore(s, v)[k].score == v && WithScore(s, v)[k] in s
  {
    if |s| > 0 {
      WithScoreMembers(s[1..], v);
    }
  }

  lemma WithScoreUnfold(s: seq<ScoredItem>, v: real)
    requires 0 < |s|
    ensures WithScore(s, v) == (if s[0].score == v then [s[0]] else []) + WithScore(s[1..], v)
  {
  }

  lemma WithScoreCons(x: ScoredItem, s: seq<ScoredItem>, v: real)
    ensures WithScore([x] + s, v) == (if x.score == v then [x] else []) + WithScore(s, v)
  {
    assert ([x] + s)[0] == x;
    assert ([x] + s)[1..] == s;
  }

  /** Insert `x` after the leading entries that score strictly higher, so
      before the first entry that scores the same or lower. The result
      starts with `x` or with the old head. */
  function Insert(x: ScoredItem, s: seq<ScoredItem>): (r: seq<ScoredItem>)
    ensures |r| == |s| + 1
    ensures r[0] == x || (|s| > 0 && r[0] == s[0])
  {
    if |s| == 0 || x.score >= s[0].score then [x] + s
    else [s[0]] + Insert(x, s[1..])
  }

  /** Inserting into a non-increasing sequence keeps it non-increasing. */
  lemma {:induction false} InsertSorted(x: ScoredItem, s: seq<ScoredItem>)
    requires SortedDesc(s)
    ensures SortedDesc(Insert(x, s))
  {
    if |s| > 0 && x.score < s[0].score {
      var t := Insert(x, s[1..]);
      InsertSorted(x, s[1..]);
      assert t[0].score <= s[0].score;
      assert forall k :: 0 <= k < |t| ==> t[k].score <= t[0].score;
      assert Insert(x, s) == [s[0]] + t;
    }
  }

  lemma MultisetCons<T>(s: seq<T>)
    requires |s| > 0
    ensures multiset(s) == multiset{s[0]} + multiset(s[1..])
  {
    assert s == [s[0]] + s[1..];
  }

  lemma ConsEqual<T>(a: seq<T>, b: seq<T>)
    requires 0 < |a| && 0 < |b| && a[0] == b[0] && a[1..] == b[1..]
    ensures a == b
  {
    assert a == [a[0]] + a[1..];
    assert b == [b[0]] + b[1..];
  }

  /** Insertion adds exactly `x` to the multiset of entries. */
  lemma {:induction false} InsertPermutes(x: ScoredItem, s: seq<ScoredItem>)
    ensures multiset(Insert(x, s)) == multiset(s) + multiset{x}
  {
    if |s| > 0 && x.score < s[0].score {
      var t := Insert(x, s[1..]);
      InsertPermutes(x, s[1..]);
      calc {
        multiset(Insert(x, s));
        multiset([s[0]] + t);
        multiset{s[0]} + multiset(t);
        multiset{s[0]} + multiset(s[1..]) + multiset{x};
        { MultisetCons(s); }
        multiset(s) + multiset{x};
      }
    }
  }

  lemma UnscoredCons(x: ScoredItem, s: seq<ScoredItem>)
    ensures Unscored([x] + s) == [x.item] + Unscored(s)
  {
    assert ([x] + s)[0] == x;
    assert ([x] + s)[1..] == s;
  }

  /** Insertion adds exactly `x`'s span to the multiset of spans. */
  lemma {:induction false} InsertPermutesItems(x: ScoredItem, s: seq<ScoredItem>)
    ensures multiset(Unscored(Insert(x, s))) == multiset(Unscored(s)) + multiset{x.item}
  {
    if |s| == 0 || x.score >= s[0].score {
      UnscoredCons(x, s);
    } else {
      var t := Insert(x, s[1..]);
      InsertPermutesItems(x, s[1..]);
      assert Insert(x, s) == [s[0]] + t;
      UnscoredCons(s[0], t);
      var u := Unscored(s[1..]);
      assert Unscored(s) == [s[0].item] + u;
      calc {
        multiset(Unscored(Insert(x, s)));
        multiset([s[0].item] + Unscored(t));
        multiset{s[0].item} + multiset(Unscored(t));
        multiset{s[0].item} + multiset(u) + multiset{x.item};
        multiset([s[0].item] + u) + multiset{x.item};
      }
    }
  }

  /** Insertion leaves every score group of `s` in place and puts `x` at the
      head of its own group. */
  lemma {:induction false} InsertStable(x: ScoredItem, s: seq<ScoredItem>, v: real)
    ensures WithScore(Insert(x, s), v) == (if x.score == v then [x] else []) + WithScore(s, v)
  {
    if |s| == 0 || x.score >= s[0].score {
      WithScoreCons(x, s, v);
    } else {
      var t := Insert(x, s[1..]);
      var rest := WithScore(s[1..], v);
      InsertStable(x, s[1..], v);
      assert Insert(x, s) == [s[0]] + t;
      WithScoreCons(s[0], t, v);
      WithScoreUnfold(s, v);
      if x.score == v {
        assert s[0].score != v;
        assert WithScore(t, v) == [x] + rest;
        assert WithScore(s, v) == rest;
        assert WithScore(Insert(x, s), v) == [x] + rest;
      } else if s[0].score == v {
        assert WithScore(t, v) == rest;
        assert WithScore(s, v) == [s[0]] + rest;
        assert WithScore(Insert(x, s), v) == [s[0]] + rest;
      } else {
        assert WithScore(t, v) == rest;
        assert WithScore(s, v) == rest;
        assert WithScore(Insert(x, s), v) == rest;
      }
    }
  }

  /** Stable insertion sort, highest score first: sort the tail, then insert
      the head, which precedes every tail entry in the input and so goes in
      front of the tail entries that score the same. */
  function SortDesc(s: seq<ScoredItem>): (r: seq<ScoredItem>)
    ensures SortedDesc(r)
    ensures |r| == |s|
  {
    if |s| == 0 then []
    else
      var t := SortDesc(s[1..]);
      InsertSorted(s[0], t);
      Insert(s[0], t)
  }

  /** The sort is a permutation of its input. */
  lemma {:induction false} SortDescPermutes(s: seq<ScoredItem>)
    ensures multiset(SortDesc(s)) == multiset(s)
  {
    if |s| > 0 {
      var t := SortDesc(s[1..]);
      SortDescPermutes(s[1..]);
      InsertPermutes(s[0], t);
      MultisetCons(s);
    }
  }

  /** The sort permutes the spans themselves, scores aside. */
  lemma {:induction false} SortDescPermutesItems(s: seq<ScoredItem>)
    ensures multiset(Unscored(SortDesc(s))) == multiset(Unscored(s))
  {
    if |s| > 0 {
      var t := SortDesc(s[1..]);
      SortDescPermutesItems(s[1..]);
      InsertPermutesItems(s[0], t);
      var u := Unscored(s[1..]);
      assert Unscored(s) == [s[0].item] + u;
      calc {
        multiset(Unscored(SortDesc(s)));
        multiset(Unscored(Insert(s[0], t)));
        multiset(Unscored(t)) + multiset{s[0].item};
        multiset(u) + multiset{s[0].item};
        multiset([s[0].item] + u);
      }
    }
  }

  /** The sort is stable: each group of equal-score entries comes out in the
      order it went in. */
  lemma {:induction false} SortDescStable(s: seq<ScoredItem>)
    ensures forall v :: WithScore(SortDesc(s), v) == WithScore(s, v)
  {
    if |s| > 0 {
      SortDescStable(s[1..]);
      forall v
        ensures WithScore(SortDesc(s), v) == WithScore(s, v)
      {
        InsertStable(s[0], SortDesc(s[1..]), v);
        WithScoreUnfold(s, v);
      }
    }
  }

  lemma WithScoreHead(s: seq<ScoredItem>)
    requires |s| > 0
    ensures |WithScore(s, s[0].score)| > 0 && WithScore(s, s[0].score)[0] == s[0]
  {
  }

  /** Being sorted and stable pins the result down: two non-increasing
      sequences with the same equal-score groups are equal. So `SortDesc`
      is the one stable descending order of its input, the order a stable
      sort with reversed comparison produces. */
  lemma {:induction false} StableSortUnique(a: seq<ScoredItem>, b: seq<ScoredItem>)
    requires SortedDesc(a) && SortedDesc(b)
    requires forall v :: WithScore(a, v) == WithScore(b, v)
    ensures a == b
    decreases |a|
  {
    if |a| == 0 {
      if |b| > 0 {
        WithScoreHead(b);
        assert false;
      }
    } else if |b| == 0 {
      WithScoreHead(a);
      assert false;
    } else {
      var m, n := a[0].score, b[0].score;
      WithScoreHead(a);
      WithScoreHead(b);
      WithScoreMembers(a, n);
      WithScoreMembers(b, m);
      assert WithScore(b, m)[0] in b;
      assert WithScore(a, n)[0] in a;
      assert m == n;
      assert a[0] == b[0];
      forall v
        ensures WithScore(a[1..], v) == WithScore(b[1..], v)
      {
        WithScoreUnfold(a, v);
        WithScoreUnfold(b, v);
        var h := if a[0].score == v then [a[0]] else [];
        assert h + WithScore(a[1..], v) == h + WithScore(b[1..], v);
        assert (h + WithScore(a[1..], v))[|h|..] == WithScore(a[1..], v);
        assert (h + WithScore(b[1..], v))[|h|..] == WithScore(b[1..], v);
      }
      StableSortUnique(a[1..], b[1..]);
      ConsEqual(a, b);
    }
  }

  /** The ranking step: attach the scores for the query, then sort stably by
      descending score. The result is a permutation of the scored spans,
      non-increasing in score, with equal-score spans in collection order. */
  function RankContent(items: seq<Item>, role: string, task: string, similarity: Similarity): (r: seq<ScoredItem>)
    requires |similarity(Query(role, task), Texts(items))| == |items|
    ensures |r| == |items|
    ensures SortedDesc(r)
    ensures multiset(Unscored(r)) == multiset(items)
    ensures var scored := Attach(items, similarity(Query(role, task), Texts(items)));
            && multiset(r) == multiset(scored)
            && forall v :: WithScore(r, v) == WithScore(scored, v)
  {
    var scored := Attach(items, similarity(Query(role, task), Texts(items)));
    AttachRoundTrip(items, similarity(Query(role, task), Texts(items)));
    SortDescStable(scored);
    SortDescPermutes(scored);
    SortDescPermutesItems(scored);
    SortDesc(scored)
  }
}
