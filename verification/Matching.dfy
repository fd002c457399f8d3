// Matching test functions to plan scenarios: the greedy pass over all scored
// pairs, best first, is stable and at least half as good as any assignment. The
// keyword score is a parameter.
module Matching {
  type Score = (string, string) -> real // of a function's name and a scenario's tag

  const THRESHOLD := 1.5

  datatype Pair = Pair(score: real, func: string, tag: string)

  // `p` is a pair of a name and a tag under its own score.
  predicate IsPair(p: Pair, names: seq<string>, tags: seq<string>, score: Score) {
    p.func in names && p.tag in tags && p.score == score(p.func, p.tag)
  }

  // Every pair with a positive score, and nothing else.
  ghost predicate IsScores(all: seq<Pair>, names: seq<string>, tags: seq<string>, score: Score) {
    && (forall p | p in all :: IsPair(p, names, tags, score))
    && (forall f, t | f in names && t in tags && score(f, t) > 0.0 :: Pair(score(f, t), f, t) in all)
  }

  ghost predicate Descending(ps: seq<Pair>) {
    forall i, j | 0 <= i < j < |ps| :: ps[i].score >= ps[j].score
  }

  predicate Conflict(p: Pair, q: Pair) {
    p.func == q.func || p.tag == q.tag
  }

  ghost predicate OneToOne(ps: seq<Pair>) {
    forall i, j | 0 <= i < j < |ps| :: !Conflict(ps[i], ps[j])
  }

  function Total(ps: seq<Pair>): real {
    if ps == [] then 0.0 else ps[0].score + Total(ps[1..])
  }

  // An assignment over the pairs that reach the threshold.
  ghost predicate IsAssignment(ps: seq<Pair>, names: seq<string>, tags: seq<string>, score: Score) {
    && OneToOne(ps)
    && forall p | p in ps :: IsPair(p, names, tags, score) && p.score >= THRESHOLD
  }

  // No pair over the threshold beats what both its sides got. In particular none
  // is left with both sides free.
  ghost predicate Stable(chosen: seq<Pair>, names: seq<string>, tags: seq<string>, score: Score) {
    forall f, t {:trigger IsCovered(chosen, score, f, t)} | f in names && t in tags && score(f, t) >= THRESHOLD ::
      IsCovered(chosen, score, f, t)
  }

  // One of the two is in a chosen pair that is no worse.
  ghost predicate IsCovered(chosen: seq<Pair>, score: Score, f: string, t: string) {
    exists q :: q in chosen && (q.func == f || q.tag == t) && q.score >= score(f, t)
  }

  ghost predicate HalfOptimal(chosen: seq<Pair>, names: seq<string>, tags: seq<string>, score: Score) {
    forall other | IsAssignment(other, names, tags, score) :: Total(other) <= 2.0 * Total(chosen)
  }

  // ---- The greedy pass ----

  predicate Used(p: Pair, chosen: seq<Pair>) {
    exists q :: q in chosen && Conflict(p, q)
  }

  predicate Takes(p: Pair, chosen: seq<Pair>) {
    !Used(p, chosen) && p.score >= THRESHOLD
  }

  function Greedy(todo: seq<Pair>, chosen: seq<Pair>): seq<Pair> {
    if todo == [] then chosen
    else Greedy(todo[1..], if Takes(todo[0], chosen) then chosen + [todo[0]] else chosen)
  }

  lemma OneToOneOn(ps: seq<Pair>, p: Pair)
    requires OneToOne(ps) && !Used(p, ps)
    ensures OneToOne(ps + [p])
  {
    forall i, j | 0 <= i < j < |ps + [p]| ensures !Conflict((ps + [p])[i], (ps + [p])[j]) {
      assert ps[i] in ps;
    }
  }

  // What is chosen stays, and comes from the pairs at hand.
  lemma {:induction false} GreedyChooses(todo: seq<Pair>, chosen: seq<Pair>)
    requires OneToOne(chosen)
    ensures var all := Greedy(todo, chosen);
            && OneToOne(all)
            && (forall q | q in chosen :: q in all)
            && (forall q | q in all :: q in chosen || (q in todo && q.score >= THRESHOLD))
  {
    if todo == [] {
    } else {
      if Takes(todo[0], chosen) {
        OneToOneOn(chosen, todo[0]);
      }
      GreedyChooses(todo[1..], if Takes(todo[0], chosen) then chosen + [todo[0]] else chosen);
    }
  }

  // Each pair over the threshold meets a chosen one that is no worse.
  lemma {:induction false} GreedyCovers(todo: seq<Pair>, chosen: seq<Pair>, p: Pair)
    requires OneToOne(chosen) && Descending(todo) && p in todo && p.score >= THRESHOLD
    requires forall q, r | q in chosen && r in todo :: q.score >= r.score
    ensures exists q :: q in Greedy(todo, chosen) && Conflict(p, q) && q.score >= p.score
  {
    var next := if Takes(todo[0], chosen) then chosen + [todo[0]] else chosen;
    if Takes(todo[0], chosen) {
      OneToOneOn(chosen, todo[0]);
    }
    if p == todo[0] {
      GreedyChooses(todo[1..], next);
      if Takes(p, chosen) {
        assert next[|chosen|] == p;
      }
    } else {
      forall q, r | q in next && r in todo[1..] ensures q.score >= r.score {}
      GreedyCovers(todo[1..], next, p);
    }
  }

  // ---- The half bound, by charging ----

  // `ps` without the pairs that meet `p`.
  function Apart(ps: seq<Pair>, p: Pair): seq<Pair> {
    if ps == [] then []
    else if Conflict(ps[0], p) then Apart(ps[1..], p)
    else [ps[0]] + Apart(ps[1..], p)
  }

  lemma {:induction false} ApartKeeps(ps: seq<Pair>, p: Pair)
    requires OneToOne(ps)
    ensures OneToOne(Apart(ps, p))
    ensures forall q :: q in Apart(ps, p) <==> q in ps && !Conflict(q, p)
  {
    if ps == [] {
    } else {
      var rest := ps[1..];
      ApartKeeps(rest, p);
      if !Conflict(ps[0], p) {
        assert forall q | q in rest :: !Conflict(ps[0], q);
        assert forall q | q in Apart(rest, p) :: q in rest;
      }
    }
  }

  // What a best pair `p` pays: its score for each of its sides that `ps` uses.
  function Charge(ps: seq<Pair>, p: Pair): real {
    (if exists q :: q in ps && q.func == p.func then p.score else 0.0)
    + (if exists q :: q in ps && q.tag == p.tag then p.score else 0.0)
  }

  lemma ChargeOn(ps: seq<Pair>, p: Pair)
    requires OneToOne(ps) && ps != [] && p.score >= 0.0
    ensures Charge(ps, p) >= Charge(ps[1..], p) + if Conflict(ps[0], p) then p.score else 0.0
  {
    assert forall q | q in ps[1..] :: !Conflict(ps[0], q);
  }

  // Dropping every pair that meets a best pair costs no more than its charge.
  lemma {:induction false} ApartCosts(ps: seq<Pair>, p: Pair)
    requires OneToOne(ps) && p.score >= 0.0
    requires forall q | q in ps :: q.score <= p.score
    ensures Total(ps) <= Total(Apart(ps, p)) + Charge(ps, p)
  {
    if ps == [] {
    } else {
      ApartCosts(ps[1..], p);
      ChargeOn(ps, p);
      assert ps[0] in ps;
      assert ([ps[0]] + Apart(ps[1..], p))[1..] == Apart(ps[1..], p);
    }
  }

  lemma {:induction false} TotalOn(ps: seq<Pair>, p: Pair)
    ensures Total(ps + [p]) == Total(ps) + p.score
  {
    if ps == [] {
      assert (ps + [p])[1..] == [];
    } else {
      TotalOn(ps[1..], p);
      assert (ps + [p])[1..] == ps[1..] + [p];
    }
  }

  lemma SomeWhereSome(ps: seq<Pair>, qs: seq<Pair>)
    requires forall p | p in ps :: p in qs
    ensures ps != [] ==> qs != []
  {
    if ps != [] {
      assert ps[0] in qs;
    }
  }

  lemma {:induction false} GreedyHalf(todo: seq<Pair>, chosen: seq<Pair>, other: seq<Pair>)
    requires OneToOne(chosen) && Descending(todo) && OneToOne(other)
    requires forall p | p in other :: p in todo && p.score >= THRESHOLD && !Used(p, chosen)
    ensures Total(other) <= 2.0 * (Total(Greedy(todo, chosen)) - Total(chosen))
  {
    if todo == [] {
      SomeWhereSome(other, todo);
    } else if !Takes(todo[0], chosen) {
      GreedyHalf(todo[1..], chosen, other);
    } else {
      var best := todo[0];
      ApartKeeps(other, best);
      ApartCosts(other, best);
      OneToOneOn(chosen, best);
      TotalOn(chosen, best);
      var rest := Apart(other, best);
      forall p | p in rest ensures p in todo[1..] && !Used(p, chosen + [best]) {
        assert p in other && !Conflict(p, best);
      }
      GreedyHalf(todo[1..], chosen + [best], rest);
    }
  }

  // The main result, for any order of equal scores.
  lemma GreedyIsStable(all: seq<Pair>, names: seq<string>, tags: seq<string>, score: Score)
    requires IsScores(all, names, tags, score) && Descending(all)
    ensures var chosen := Greedy(all, []);
            && IsAssignment(chosen, names, tags, score)
            && Stable(chosen, names, tags, score)
            && HalfOptimal(chosen, names, tags, score)
  {
    var chosen := Greedy(all, []);
    GreedyChooses(all, []);
    forall f, t | f in names && t in tags && score(f, t) >= THRESHOLD
      ensures IsCovered(chosen, score, f, t)
    {
      GreedyCovers(all, [], Pair(score(f, t), f, t));
    }
    forall other | IsAssignment(other, names, tags, score) ensures Total(other) <= 2.0 * Total(chosen) {
      GreedyHalf(all, [], other);
    }
  }

  // ---- The loops ----

  function Place(ps: seq<Pair>, p: Pair): seq<Pair> {
    if ps == [] || p.score >= ps[0].score then [p] + ps else [ps[0]] + Place(ps[1..], p)
  }

  function Sorted(ps: seq<Pair>): seq<Pair> {
    if ps == [] then [] else Place(Sorted(ps[1..]), ps[0])
  }

  lemma {:induction false} PlaceAdds(ps: seq<Pair>, p: Pair)
    ensures multiset(Place(ps, p)) == multiset(ps) + multiset{p}
    ensures Place(ps, p)[0] == if ps == [] || p.score >= ps[0].score then p else ps[0]
  {
    if ps != [] && p.score < ps[0].score {
      PlaceAdds(ps[1..], p);
      assert ps == [ps[0]] + ps[1..];
    }
  }

  lemma {:induction false} PlaceSorts(ps: seq<Pair>, p: Pair)
    requires Descending(ps)
    ensures Descending(Place(ps, p))
  {
    if ps != [] && p.score < ps[0].score {
      PlaceSorts(ps[1..], p);
      PlaceAdds(ps[1..], p);
    }
  }

  lemma {:induction false} SortedKeeps(ps: seq<Pair>)
    ensures multiset(Sorted(ps)) == multiset(ps)
  {
    if ps == [] {
    } else {
      SortedKeeps(ps[1..]);
      PlaceAdds(Sorted(ps[1..]), ps[0]);
      assert ps == [ps[0]] + ps[1..];
    }
  }

  lemma {:induction false} SortedDescends(ps: seq<Pair>)
    ensures Descending(Sorted(ps))
  {
    if ps == [] {
    } else {
      SortedDescends(ps[1..]);
      PlaceSorts(Sorted(ps[1..]), ps[0]);
    }
  }

  lemma SortedScores(all: seq<Pair>, names: seq<string>, tags: seq<string>, score: Score)
    requires IsScores(all, names, tags, score)
    ensures IsScores(Sorted(all), names, tags, score) && Descending(Sorted(all))
  {
    SortedDescends(all);
    SortedKeeps(all);
    forall p ensures p in Sorted(all) <==> p in all {
      assert p in multiset(Sorted(all)) <==> p in multiset(all);
    }
  }

  method ScoreAll(names: seq<string>, tags: seq<string>, score: Score) returns (all: seq<Pair>)
    ensures IsScores(all, names, tags, score) && forall p | p in all :: p.score > 0.0
  {
    all := [];
    for i := 0 to |names|
      invariant IsScores(all, names[..i], tags, score) && forall p | p in all :: p.score > 0.0
    {
      ghost var before := all;
      for j := 0 to |tags|
        invariant forall p | p in before :: p in all
        invariant forall p | p in all :: IsPair(p, names[..i + 1], tags, score) && p.score > 0.0
        invariant forall t | t in tags[..j] && score(names[i], t) > 0.0 :: Pair(score(names[i], t), names[i], t) in all
      {
        if score(names[i], tags[j]) > 0.0 {
          all := all + [Pair(score(names[i], tags[j]), names[i], tags[j])];
        }
      }
      assert tags[..|tags|] == tags && names[..i + 1] == names[..i] + [names[i]];
    }
    assert names[..|names|] == names;
  }

  ghost function FuncsOf(ps: seq<Pair>): set<string> {
    set p | p in ps :: p.func
  }

  ghost function TagsOf(ps: seq<Pair>): set<string> {
    set p | p in ps :: p.tag
  }

  // What the dictionary `matched` records of the chosen pairs.
  ghost predicate Records(matched: map<string, string>, chosen: seq<Pair>) {
    && matched.Keys == FuncsOf(chosen)
    && matched.Values == TagsOf(chosen)
    && forall p | p in chosen :: p.func in matched && matched[p.func] == p.tag
  }

  lemma RecordsOn(matched: map<string, string>, chosen: seq<Pair>, p: Pair)
    requires Records(matched, chosen) && !Used(p, chosen)
    ensures Records(matched[p.func := p.tag], chosen + [p])
    ensures TagsOf(chosen + [p]) == TagsOf(chosen) + {p.tag}
    ensures FuncsOf(chosen + [p]) == FuncsOf(chosen) + {p.func}
  {
    var next := matched[p.func := p.tag];
    assert p.func !in matched;
    assert forall q :: q in chosen + [p] <==> q in chosen || q == p;
    forall t ensures t in next.Values <==> t in matched.Values + {p.tag} {
      if t in matched.Values {
        var f :| f in matched && matched[f] == t;
        assert next[f] == t;
      }
      assert next[p.func] == p.tag;
    }
  }

  // The greedy pass with its two sets of used names and tags.
  method Assign(todo: seq<Pair>) returns (matched: map<string, string>, used: set<string>)
    ensures Records(matched, Greedy(todo, [])) && used == TagsOf(Greedy(todo, []))
  {
    var funcs := {};
    ghost var chosen := [];
    matched, used := map[], {};
    for i := 0 to |todo|
      invariant Greedy(todo[i..], chosen) == Greedy(todo, [])
      invariant Records(matched, chosen) && used == TagsOf(chosen) && funcs == FuncsOf(chosen)
    {
      var p := todo[i];
      assert todo[i..][1..] == todo[i + 1..];
      if !(p.func in funcs || p.tag in used) && p.score >= THRESHOLD {
        RecordsOn(matched, chosen, p);
        matched := matched[p.func := p.tag];
        used := used + {p.tag};
        funcs := funcs + {p.func};
        chosen := chosen + [p];
      }
    }
  }

  function Unmatched(names: seq<string>, matched: map<string, string>): seq<string> {
    if names == [] then []
    else
      var last := names[|names| - 1];
      Unmatched(names[..|names| - 1], matched) + if last in matched then [] else [last]
  }

  // The names left over, each as often as it was given, and in their order.
  lemma {:induction false} UnmatchedExactly(names: seq<string>, matched: map<string, string>)
    ensures var rest := Unmatched(names, matched);
            && (forall f :: multiset(rest)[f] == if f in matched then 0 else multiset(names)[f])
            && (forall f :: f in rest <==> f in names && f !in matched)
  {
    if names == [] {
    } else {
      var front, last := names[..|names| - 1], names[|names| - 1];
      UnmatchedExactly(front, matched);
      assert names == front + [last];
    }
  }

  lemma {:induction false} UnmatchedInOrder(a: seq<string>, b: seq<string>, matched: map<string, string>)
    ensures Unmatched(a + b, matched) == Unmatched(a, matched) + Unmatched(b, matched)
  {
    if b == [] {
      assert a + b == a;
    } else {
      var front, last := b[..|b| - 1], b[|b| - 1];
      UnmatchedInOrder(a, front, matched);
      assert (a + b)[..|a + b| - 1] == a + front;
    }
  }

  // Each name in the dictionary has a tag that it scores at least 1.5 with, and no
  // other name has it.
  ghost predicate Pairs(matched: map<string, string>, names: seq<string>, tags: seq<string>, score: Score) {
    && (forall f | f in matched :: f in names && matched[f] in tags && score(f, matched[f]) >= 1.5)
    && (forall f, g | f in matched && g in matched && matched[f] == matched[g] :: f == g)
  }

  // One of the two is in the dictionary, with a partner no worse.
  ghost predicate IsServed(matched: map<string, string>, score: Score, f: string, t: string) {
    || (f in matched && score(f, matched[f]) >= score(f, t))
    || exists g :: g in matched && matched[g] == t && score(g, t) >= score(f, t)
  }

  lemma PairOf(matched: map<string, string>, chosen: seq<Pair>, f: string) returns (p: Pair)
    requires Records(matched, chosen) && f in matched
    ensures p in chosen && p.func == f && p.tag == matched[f]
  {
    assert f in FuncsOf(chosen);
    p :| p in chosen && p.func == f;
  }

  lemma MatchedPairs(
    matched: map<string, string>, chosen: seq<Pair>, names: seq<string>, tags: seq<string>, score: Score)
    requires Records(matched, chosen) && IsAssignment(chosen, names, tags, score)
    ensures Pairs(matched, names, tags, score)
  {
    forall f | f in matched
      ensures f in names && matched[f] in tags && score(f, matched[f]) >= 1.5
    {
      var p := PairOf(matched, chosen, f);
    }
    forall f, g | f in matched && g in matched && matched[f] == matched[g] ensures f == g {
      var p := PairOf(matched, chosen, f);
      var q := PairOf(matched, chosen, g);
      var i :| 0 <= i < |chosen| && chosen[i] == p;
      var j :| 0 <= j < |chosen| && chosen[j] == q;
    }
  }

  lemma MatchedServes(
    matched: map<string, string>, chosen: seq<Pair>, names: seq<string>, tags: seq<string>, score: Score,
    f: string, t: string)
    requires Records(matched, chosen)
    requires IsAssignment(chosen, names, tags, score) && Stable(chosen, names, tags, score)
    requires f in names && t in tags && score(f, t) >= 1.5
    ensures IsServed(matched, score, f, t)
  {
    assert IsCovered(chosen, score, f, t);
    var q :| q in chosen && (q.func == f || q.tag == t) && q.score >= score(f, t);
    assert IsPair(q, names, tags, score);
    ServedBy(matched, score, f, t, q);
  }

  lemma ServedBy(matched: map<string, string>, score: Score, f: string, t: string, q: Pair)
    requires q.func in matched && matched[q.func] == q.tag && q.score == score(q.func, q.tag)
    requires (q.func == f || q.tag == t) && q.score >= score(f, t)
    ensures IsServed(matched, score, f, t)
  {
    if q.func != f {
      assert matched[q.func] == t && score(q.func, t) >= score(f, t);
    }
  }

  method Left(names: seq<string>, matched: map<string, string>) returns (unmatched: seq<string>)
    ensures unmatched == Unmatched(names, matched)
  {
    unmatched := [];
    for i := 0 to |names|
      invariant unmatched == Unmatched(names[..i], matched)
    {
      assert names[..i + 1][..i] == names[..i];
      if names[i] !in matched {
        unmatched := unmatched + [names[i]];
      }
    }
    assert names[..|names|] == names;
  }

  method Match(names: seq<string>, tags: seq<string>, score: Score)
    returns (matched: map<string, string>, unmatched: seq<string>, used: set<string>, ghost chosen: seq<Pair>)
    ensures Records(matched, chosen) && used == matched.Values
    ensures IsAssignment(chosen, names, tags, score)
    ensures Stable(chosen, names, tags, score) && HalfOptimal(chosen, names, tags, score)
    ensures Pairs(matched, names, tags, score)
    ensures forall f, t | f in names && t in tags && score(f, t) >= 1.5 :: IsServed(matched, score, f, t)
    ensures unmatched == Unmatched(names, matched)
  {
    var all := ScoreAll(names, tags, score);
    SortedScores(all, names, tags, score);
    GreedyIsStable(Sorted(all), names, tags, score);
    matched, used := Assign(Sorted(all));
    chosen := Greedy(Sorted(all), []);
    MatchedPairs(matched, chosen, names, tags, score);
    forall f, t | f in names && t in tags && score(f, t) >= 1.5 ensures IsServed(matched, score, f, t) {
      MatchedServes(matched, chosen, names, tags, score, f, t);
    }
    unmatched := Left(names, matched);
  }
}
