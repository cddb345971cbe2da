/** The waiting-queue order the dashboard and the triage list use:
    `ORDER BY priority_score DESC, created_at ASC`. Rows tied on both keys may
    come out in either order, so the order is specified as "ranked and a
    permutation" and one ranking function realises it. */
module Queue {
  import opened Records

  /** `a` may be listed before `b`. */
  predicate Ahead(a: TriageRecord, b: TriageRecord) {
    a.priorityScore > b.priorityScore || (a.priorityScore == b.priorityScore && a.createdAt <= b.createdAt)
  }

  lemma AheadTotal(a: TriageRecord, b: TriageRecord)
    ensures Ahead(a, b) || Ahead(b, a)
  {
  }

  predicate Ranked(s: seq<TriageRecord>) {
    forall i, j :: 0 <= i < j < |s| ==> Ahead(s[i], s[j])
  }

  /** Place `x` in a ranked sequence: before the first row it may precede. */
  function Insert(x: TriageRecord, s: seq<TriageRecord>): (r: seq<TriageRecord>)
    requires Ranked(s)
    ensures Ranked(r)
    ensures multiset(r) == multiset(s) + multiset{x}
  {
    if s == [] then [x]
    else if Ahead(x, s[0]) then [x] + s
    else
      var rest := Insert(x, s[1..]);
      HeadLeads(s, x, rest);
      assert s == [s[0]] + s[1..];
      [s[0]] + rest
  }

  /** The head of a ranked sequence may precede everything in its tail and
      anything it may itself precede. */
  lemma HeadLeads(s: seq<TriageRecord>, x: TriageRecord, rest: seq<TriageRecord>)
    requires Ranked(s) && |s| > 0 && Ahead(s[0], x)
    requires multiset(rest) == multiset(s[1..]) + multiset{x}
    ensures forall k :: 0 <= k < |rest| ==> Ahead(s[0], rest[k])
  {
    forall k | 0 <= k < |rest|
      ensures Ahead(s[0], rest[k])
    {
      assert rest[k] in multiset(rest);
      if rest[k] != x {
        assert rest[k] in multiset(s[1..]);
        var j :| 0 <= j < |s[1..]| && s[1..][j] == rest[k];
        assert s[j + 1] == rest[k];
      }
    }
  }

  /** The rows in queue order. */
  function Rank(s: seq<TriageRecord>): (r: seq<TriageRecord>)
    ensures Ranked(r)
    ensures multiset(r) == multiset(s) && |r| == |s|
  {
    if s == [] then []
    else
      assert s == [s[0]] + s[1..];
      Insert(s[0], Rank(s[1..]))
  }

  function Min(a: nat, b: nat): nat { if a < b then a else b }

  /** `LIMIT n` over a ranked list: its head, which outranks everything left out. */
  function Take(s: seq<TriageRecord>, n: nat): (r: seq<TriageRecord>)
    requires Ranked(s)
    ensures |r| == Min(n, |s|) && Ranked(r)
    ensures multiset(r) <= multiset(s)
    ensures forall x :: x in multiset(s) - multiset(r) && 0 < |r| ==> Ahead(r[|r| - 1], x)
  {
    var r := s[..Min(n, |s|)];
    assert s == r + s[|r|..];
    assert multiset(s) - multiset(r) == multiset(s[|r|..]);
    r
  }
}
