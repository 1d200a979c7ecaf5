/**
 * `re.search` (the leftmost match) and `re.findall` (successive
 * non-overlapping matches, left to right) over the anchored matchers.
 */
module Search {
  import opened Wrappers
  import opened Patterns

  /** `p` matches nowhere in `t` from position `from` on. */
  predicate NoMatchFrom(p: Pattern, t: string, from: nat)
    requires from <= |t|
  {
    forall j :: from <= j <= |t| ==> MatchAt(p, t, j).None?
  }

  /** The first position at or after `from` where `p` matches, as `re.search` scans. */
  function Find(p: Pattern, t: string, from: nat): (r: Option<nat>)
    requires from <= |t|
    ensures r.Some? ==> from <= r.value <= |t| && MatchAt(p, t, r.value).Some?
    ensures r.Some? ==> forall j :: from <= j < r.value ==> MatchAt(p, t, j).None?
    ensures r.None? <==> NoMatchFrom(p, t, from)
    decreases |t| - from
  {
    if MatchAt(p, t, from).Some? then Some(from)
    else if from == |t| then None
    else
      var r := Find(p, t, from + 1);
      FindStep(p, t, from, r);
      r
  }

  /** A position without a match changes nothing about the first match after it. */
  lemma FindStep(p: Pattern, t: string, from: nat, r: Option<nat>)
    requires from < |t| && MatchAt(p, t, from).None?
    requires r.Some? ==> from + 1 <= r.value <= |t| && MatchAt(p, t, r.value).Some?
    requires r.Some? ==> forall j :: from + 1 <= j < r.value ==> MatchAt(p, t, j).None?
    requires r.None? <==> NoMatchFrom(p, t, from + 1)
    ensures r.Some? ==> from <= r.value <= |t| && MatchAt(p, t, r.value).Some?
    ensures r.Some? ==> forall j :: from <= j < r.value ==> MatchAt(p, t, j).None?
    ensures r.None? <==> NoMatchFrom(p, t, from)
  {
  }

  /** The leftmost match of `p` in `t` starts at `i`. */
  predicate IsLeftmost(p: Pattern, t: string, i: nat) {
    i <= |t| && MatchAt(p, t, i).Some? && forall j :: 0 <= j < i ==> MatchAt(p, t, j).None?
  }

  /** `re.search(p, t)`: the leftmost match, and nothing exactly when `p` matches nowhere. */
  function SearchFirst(p: Pattern, t: string): (r: Option<Match>)
    ensures r.None? <==> NoMatchFrom(p, t, 0)
    ensures r.Some? ==> IsLeftmost(p, t, r.value.start) && MatchAt(p, t, r.value.start) == r
    ensures r.Some? ==> WellCaptured(p, r.value)
    ensures forall i: nat :: IsLeftmost(p, t, i) ==> r == MatchAt(p, t, i)
  {
    match Find(p, t, 0)
    case None => None
    case Some(i) =>
      assert forall j: nat :: IsLeftmost(p, t, j) ==> j == i by {
        forall j: nat | IsLeftmost(p, t, j) ensures j == i {
          assert !(j < i) && !(i < j);
        }
      }
      MatchAt(p, t, i)
  }

  /**
   * The matches `re.finditer` yields from position `from`: the leftmost one,
   * then the matches from where it ends.
   */
  function FindAll(p: Pattern, t: string, from: nat): (r: seq<Match>)
    requires from <= |t|
    ensures forall k :: 0 <= k < |r| ==> from <= r[k].start <= |t| && MatchAt(p, t, r[k].start) == Some(r[k])
    ensures forall k :: 0 <= k < |r| - 1 ==> r[k].end <= r[k + 1].start
    ensures r == [] <==> NoMatchFrom(p, t, from)
    decreases |t| - from
  {
    match Find(p, t, from)
    case None => []
    case Some(i) =>
      var m := MatchAt(p, t, i).value;
      var rest := FindAll(p, t, m.end);
      PrependMatch(p, t, from, m, rest);
      [m] + rest
  }

  /** A match followed by ordered matches from its end is an ordered list of matches. */
  lemma PrependMatch(p: Pattern, t: string, from: nat, m: Match, rest: seq<Match>)
    requires from <= m.start < m.end <= |t| && MatchAt(p, t, m.start) == Some(m)
    requires forall k :: 0 <= k < |rest| ==> m.end <= rest[k].start <= |t| && MatchAt(p, t, rest[k].start) == Some(rest[k])
    requires forall k :: 0 <= k < |rest| - 1 ==> rest[k].end <= rest[k + 1].start
    ensures var r := [m] + rest;
      && (forall k :: 0 <= k < |r| ==> from <= r[k].start <= |t| && MatchAt(p, t, r[k].start) == Some(r[k]))
      && (forall k :: 0 <= k < |r| - 1 ==> r[k].end <= r[k + 1].start)
  {
    ConsIndex(m, rest);
  }

  /** Where the elements of `[m] + rest` come from. */
  lemma ConsIndex(m: Match, rest: seq<Match>)
    ensures ([m] + rest)[0] == m && |[m] + rest| == 1 + |rest|
    ensures forall k :: 0 < k < 1 + |rest| ==> ([m] + rest)[k] == rest[k - 1]
  {
  }

  /** Reference enumeration: the match at every position from `from` on, in text order. */
  function EveryMatch(p: Pattern, t: string, from: nat): (r: seq<Match>)
    requires from <= |t|
    ensures forall k :: 0 <= k < |r| ==> from <= r[k].start <= |t| && MatchAt(p, t, r[k].start) == Some(r[k])
    ensures forall k :: 0 <= k < |r| ==> WellCaptured(p, r[k])
    ensures forall k :: 0 <= k < |r| - 1 ==> r[k].start < r[k + 1].start
    decreases |t| - from
  {
    var here := if MatchAt(p, t, from).Some? then [MatchAt(p, t, from).value] else [];
    if from == |t| then here else here + EveryMatch(p, t, from + 1)
  }

  /** Positions without a match contribute nothing to the reference enumeration. */
  lemma {:induction false} EveryMatchSkip(p: Pattern, t: string, from: nat, to: nat)
    requires from <= to <= |t|
    requires forall j :: from <= j < to ==> MatchAt(p, t, j).None?
    ensures EveryMatch(p, t, from) == EveryMatch(p, t, to)
    decreases |t| - from
  {
    if from < to {
      EveryMatchNoneHere(p, t, from);
      EveryMatchSkip(p, t, from + 1, to);
    }
  }

  /** A position without a match adds nothing to the reference enumeration. */
  lemma EveryMatchNoneHere(p: Pattern, t: string, from: nat)
    requires from < |t| && MatchAt(p, t, from).None?
    ensures EveryMatch(p, t, from) == EveryMatch(p, t, from + 1)
  {
  }

  /** `r` holds exactly the matches of `p` at positions from `from` on. */
  ghost predicate ListsExactly(p: Pattern, t: string, from: nat, r: seq<Match>) {
    forall m :: m in r <==> from <= m.start <= |t| && MatchAt(p, t, m.start) == Some(m)
  }

  /** The reference enumeration holds exactly the matches at positions from `from` on. */
  lemma {:induction false} EveryMatchExact(p: Pattern, t: string, from: nat)
    requires from <= |t|
    ensures ListsExactly(p, t, from, EveryMatch(p, t, from))
    decreases |t| - from
  {
    if from < |t| {
      EveryMatchExact(p, t, from + 1);
      EveryMatchExactStep(p, t, from);
    } else {
      EveryMatchExactEnd(p, t, from);
    }
  }

  /** The base of `EveryMatchExact`: at the end of the text only a match there can be listed. */
  lemma EveryMatchExactEnd(p: Pattern, t: string, from: nat)
    requires from == |t|
    ensures ListsExactly(p, t, from, EveryMatch(p, t, from))
  {
  }

  /** The step of `EveryMatchExact`: from the positions after `from` to those from `from` on. */
  lemma EveryMatchExactStep(p: Pattern, t: string, from: nat)
    requires from < |t|
    requires ListsExactly(p, t, from + 1, EveryMatch(p, t, from + 1))
    ensures ListsExactly(p, t, from, EveryMatch(p, t, from))
  {
    EveryMatchMembers(p, t, from);
    forall m ensures m in EveryMatch(p, t, from) <==> from <= m.start <= |t| && MatchAt(p, t, m.start) == Some(m) {
      if m.start == from {
        assert m in EveryMatch(p, t, from) <==> MatchAt(p, t, from) == Some(m);
      }
    }
  }

  /** The reference enumeration from `from` holds the match at `from`, if any, and those after it. */
  lemma EveryMatchMembers(p: Pattern, t: string, from: nat)
    requires from < |t|
    ensures forall m :: m in EveryMatch(p, t, from) <==> MatchAt(p, t, from) == Some(m) || m in EveryMatch(p, t, from + 1)
  {
  }

  /** No match of `p` in `t` starts strictly inside another one. */
  predicate NonOverlapping(p: Pattern, t: string) {
    forall i: nat, j: nat :: i < j <= |t| && MatchAt(p, t, i).Some? && j < MatchAt(p, t, i).value.end ==> MatchAt(p, t, j).None?
  }

  /**
   * A match with no other match before it (from `from` on) and none starting
   * inside it heads the reference enumeration, which then goes on from its end.
   */
  lemma EveryMatchAround(p: Pattern, t: string, from: nat, m: Match)
    requires from <= m.start < m.end <= |t| && MatchAt(p, t, m.start) == Some(m)
    requires forall j :: from <= j < m.start ==> MatchAt(p, t, j).None?
    requires forall j :: m.start < j < m.end ==> MatchAt(p, t, j).None?
    ensures EveryMatch(p, t, from) == [m] + EveryMatch(p, t, m.end)
  {
    EveryMatchSkip(p, t, from, m.start);
    assert EveryMatch(p, t, m.start) == [m] + EveryMatch(p, t, m.start + 1);
    EveryMatchSkip(p, t, m.start + 1, m.end);
  }

  /** For a pattern whose matches cannot overlap, `re.finditer` misses no match. */
  lemma {:induction false} FindAllIsEveryMatch(p: Pattern, t: string, from: nat)
    requires from <= |t| && NonOverlapping(p, t)
    ensures FindAll(p, t, from) == EveryMatch(p, t, from)
    decreases |t| - from
  {
    match Find(p, t, from)
    case None =>
      EveryMatchSkip(p, t, from, |t|);
      EveryMatchAtEnd(p, t);
    case Some(i) =>
      var m := MatchAt(p, t, i).value;
      forall j | i < j < m.end ensures MatchAt(p, t, j).None? {
        NoMatchInside(p, t, i, j);
      }
      EveryMatchAround(p, t, from, m);
      FindAllIsEveryMatch(p, t, m.end);
  }

  /** At the end of the text the reference enumeration is empty when nothing matches there. */
  lemma EveryMatchAtEnd(p: Pattern, t: string)
    requires MatchAt(p, t, |t|).None?
    ensures EveryMatch(p, t, |t|) == []
  {
  }

  /** Where matches cannot overlap, no match starts inside the match at `i`. */
  lemma NoMatchInside(p: Pattern, t: string, i: nat, j: nat)
    requires NonOverlapping(p, t)
    requires i < j <= |t| && MatchAt(p, t, i).Some? && j < MatchAt(p, t, i).value.end
    ensures MatchAt(p, t, j).None?
  {
  }

  /** Score matches never overlap (the only `r` in one is its first character). */
  lemma RougeNonOverlapping(t: string)
    ensures NonOverlapping(Rouge, t)
  {
    forall i: nat, j: nat | i < j <= |t| && MatchAt(Rouge, t, i).Some? && j < MatchAt(Rouge, t, i).value.end
      ensures MatchAt(Rouge, t, j).None?
    {
      RougeMatchesDisjoint(t, i, j);
    }
  }

  /**
   * `re.findall` on the score pattern yields the match at every position
   * where the pattern matches, in text order.
   */
  lemma RougeFindAllIsEveryMatch(t: string)
    ensures FindAll(Rouge, t, 0) == EveryMatch(Rouge, t, 0)
  {
    RougeNonOverlapping(t);
    FindAllIsEveryMatch(Rouge, t, 0);
  }

  /** A pattern matches nowhere in a text lacking one of its leading literal's characters. */
  lemma NoMatchWithout(p: Pattern, t: string, d: nat)
    requires d < |Lead(p)| && Lead(p)[d] !in t
    ensures NoMatchFrom(p, t, 0) && SearchFirst(p, t).None?
  {
    forall j | 0 <= j <= |t| ensures MatchAt(p, t, j).None? {
      if j + d < |t| {
        assert t[j + d] in t;
      }
      MismatchNoMatch(p, t, j, d);
    }
  }

  /** A score match with none before it (from `from` on) heads the reference enumeration. */
  lemma RougeEveryMatchStep(t: string, from: nat, m: Match)
    requires from <= m.start <= |t| && MatchAt(Rouge, t, m.start) == Some(m)
    requires forall j :: from <= j < m.start ==> MatchAt(Rouge, t, j).None?
    ensures EveryMatch(Rouge, t, from) == [m] + EveryMatch(Rouge, t, m.end)
  {
    forall j | m.start < j < m.end ensures MatchAt(Rouge, t, j).None? {
      RougeMatchesDisjoint(t, m.start, j);
    }
    EveryMatchAround(Rouge, t, from, m);
  }

  /** A score match one position past a position without a match is the next one in the enumeration. */
  lemma RougeEveryMatchAfterGap(t: string, from: nat, m: Match)
    requires from < m.start <= |t| && from + 1 == m.start
    requires MatchAt(Rouge, t, from).None? && MatchAt(Rouge, t, m.start) == Some(m)
    ensures EveryMatch(Rouge, t, from) == [m] + EveryMatch(Rouge, t, m.end)
  {
    RougeEveryMatchStep(t, from, m);
  }

  /** A pattern matching neither before `k`, nor at `k`, nor after it, matches nowhere. */
  lemma NoMatchAround(p: Pattern, t: string, k: nat)
    requires k < |t|
    requires forall j: nat :: j < k ==> MatchAt(p, t, j).None?
    requires MatchAt(p, t, k).None?
    requires forall j: nat :: k < j < |t| ==> MatchAt(p, t, j).None?
    requires MatchAt(p, t, |t|).None?
    ensures NoMatchFrom(p, t, 0)
  {
  }

  /**
   * A pattern matches at no position whose leading literal would put its
   * `d`-th character inside a piece `x` lacking that character.
   */
  lemma NoMatchInPiece(p: Pattern, a: string, x: string, b: string, d: nat)
    requires d < |Lead(p)| && Lead(p)[d] !in x
    ensures forall j: nat :: |a| <= j + d < |a| + |x| ==> MatchAt(p, a + x + b, j).None?
  {
    var t := a + x + b;
    forall j: nat | |a| <= j + d < |a| + |x| ensures MatchAt(p, t, j).None? {
      assert t[j + d] == x[j + d - |a|];
      MismatchNoMatch(p, t, j, d);
    }
  }
}
