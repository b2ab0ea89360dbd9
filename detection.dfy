/**
 * Platform detection of the newer orchestrator: the connected wrappers are
 * sorted by ascending `Priority` with a stable sort (Array.prototype.sort is
 * stable since ES2019) and the first whose `IsCurrentPlatform()` holds wins.
 * `Best` is an independent statement of the intended winner: the earliest
 * matching candidate among those of minimal priority.
 */
module Detection {
  import opened Common

  /** A connected wrapper as detection sees it. */
  datatype Candidate<E> = Candidate(entry: E, priority: int, matches: bool)

  ghost predicate SortedByPriority<E>(s: seq<Candidate<E>>) {
    forall i, j | 0 <= i < j < |s| :: s[i].priority <= s[j].priority
  }

  /** Inserts `c` before the first element whose priority is not smaller. */
  function Insert<E(==)>(c: Candidate<E>, s: seq<Candidate<E>>): seq<Candidate<E>> {
    if s == [] then [c]
    else if c.priority <= s[0].priority then [c] + s
    else [s[0]] + Insert(c, s[1..])
  }

  /** Stable insertion sort by ascending priority. */
  function SortByPriority<E(==)>(s: seq<Candidate<E>>): seq<Candidate<E>> {
    if s == [] then [] else Insert(s[0], SortByPriority(s[1..]))
  }

  /** Inserting adds exactly `c`. */
  lemma {:induction false} InsertPermutes<E>(c: Candidate<E>, s: seq<Candidate<E>>)
    ensures multiset(Insert(c, s)) == multiset(s) + multiset{c}
  {
    if s != [] && c.priority > s[0].priority {
      InsertPermutes(c, s[1..]);
      assert s == [s[0]] + s[1..];
    }
  }

  /** Sorting is a permutation. */
  lemma {:induction false} SortPermutes<E>(s: seq<Candidate<E>>)
    ensures multiset(SortByPriority(s)) == multiset(s)
  {
    if s != [] {
      SortPermutes(s[1..]);
      InsertPermutes(s[0], SortByPriority(s[1..]));
      assert s == [s[0]] + s[1..];
    }
  }

  /** The loop `for (w of sorted) if (w.IsCurrentPlatform()) { ...; break; }`. */
  function FirstMatch<E>(s: seq<Candidate<E>>): (r: Option<Candidate<E>>)
    ensures r.None? <==> forall i | 0 <= i < |s| :: !s[i].matches
    ensures r.Some? ==> r.value.matches && exists i | 0 <= i < |s| :: s[i] == r.value
  {
    if s == [] then None
    else if s[0].matches then Some(s[0])
    else
      var r := FirstMatch(s[1..]);
      assert forall i | 1 <= i < |s| :: s[i] == s[1..][i - 1];
      r
  }

  /** The scan stops at the first match: every candidate before the one found fails to match. */
  lemma {:induction false} FirstMatchIsEarliest<E>(s: seq<Candidate<E>>)
    ensures FirstMatch(s).Some? ==> exists i | 0 <= i < |s| ::
      s[i] == FirstMatch(s).value && forall j | 0 <= j < i :: !s[j].matches
  {
    if s != [] && !s[0].matches {
      FirstMatchIsEarliest(s[1..]);
      if FirstMatch(s).Some? {
        var i :| 0 <= i < |s[1..]| && s[1..][i] == FirstMatch(s[1..]).value && forall j | 0 <= j < i :: !s[1..][j].matches;
        assert s[i + 1] == FirstMatch(s).value && forall j | 0 <= j < i + 1 :: !s[j].matches;
      }
    }
  }

  /** The winner by priority, earlier candidates winning ties. */
  function Best<E>(s: seq<Candidate<E>>): Option<Candidate<E>> {
    if s == [] then None
    else
      var rest := Best(s[1..]);
      if s[0].matches && (rest.None? || s[0].priority <= rest.value.priority) then Some(s[0])
      else rest
  }

  /** Candidate `i` matches, and every other match has a larger priority or comes later. */
  ghost predicate EarliestMinimalMatch<E>(s: seq<Candidate<E>>, i: int) {
    0 <= i < |s| && s[i].matches &&
    forall j | 0 <= j < |s| && s[j].matches ::
      s[i].priority < s[j].priority || (s[i].priority == s[j].priority && i <= j)
  }

  lemma {:induction false} InsertKeepsLowerBound<E>(c: Candidate<E>, s: seq<Candidate<E>>, p: int)
    requires forall i | 0 <= i < |s| :: p <= s[i].priority
    requires p <= c.priority
    ensures forall i | 0 <= i < |Insert(c, s)| :: p <= Insert(c, s)[i].priority
  {
    if s != [] && c.priority > s[0].priority {
      InsertKeepsLowerBound(c, s[1..], p);
    }
  }

  lemma {:induction false} InsertKeepsSorted<E>(c: Candidate<E>, s: seq<Candidate<E>>)
    requires SortedByPriority(s)
    ensures SortedByPriority(Insert(c, s))
  {
    if s != [] && c.priority > s[0].priority {
      InsertKeepsSorted(c, s[1..]);
      InsertKeepsLowerBound(c, s[1..], s[0].priority);
    }
  }

  lemma {:induction false} SortIsSorted<E>(s: seq<Candidate<E>>)
    ensures SortedByPriority(SortByPriority(s))
  {
    if s != [] {
      SortIsSorted(s[1..]);
      InsertKeepsSorted(s[0], SortByPriority(s[1..]));
    }
  }

  /** Scanning after inserting `c` finds `c` exactly when it beats the earlier scan's winner. */
  lemma {:induction false} FirstMatchInsert<E>(c: Candidate<E>, s: seq<Candidate<E>>)
    requires SortedByPriority(s)
    ensures FirstMatch(Insert(c, s)) ==
      if c.matches && (FirstMatch(s).None? || c.priority <= FirstMatch(s).value.priority)
      then Some(c) else FirstMatch(s)
  {
    if s == [] {
    } else if c.priority <= s[0].priority {
      assert ([c] + s)[1..] == s;
    } else {
      FirstMatchInsert(c, s[1..]);
      assert ([s[0]] + Insert(c, s[1..]))[1..] == Insert(c, s[1..]);
    }
  }

  /** Sorting stably by priority and taking the first match picks `Best`. */
  lemma {:induction false} SortedDetectionIsBest<E>(s: seq<Candidate<E>>)
    ensures FirstMatch(SortByPriority(s)) == Best(s)
  {
    if s != [] {
      SortedDetectionIsBest(s[1..]);
      SortIsSorted(s[1..]);
      FirstMatchInsert(s[0], SortByPriority(s[1..]));
    }
  }

  /** `Best` is empty exactly when nothing matches, and otherwise is the unique earliest minimal match. */
  lemma {:induction false} BestIsEarliestMinimal<E>(s: seq<Candidate<E>>)
    ensures Best(s).None? <==> forall j | 0 <= j < |s| :: !s[j].matches
    ensures Best(s).Some? ==> exists i :: EarliestMinimalMatch(s, i) && s[i] == Best(s).value
    ensures forall i | EarliestMinimalMatch(s, i) :: Best(s) == Some(s[i])
  {
    if s != [] {
      var rest := s[1..];
      BestIsEarliestMinimal(rest);
      assert forall j | 1 <= j < |s| :: s[j] == rest[j - 1];
      if s[0].matches && (Best(rest).None? || s[0].priority <= Best(rest).value.priority) {
        if Best(rest).Some? {
          var k :| EarliestMinimalMatch(rest, k) && rest[k] == Best(rest).value;
        }
        assert EarliestMinimalMatch(s, 0);
        forall i | EarliestMinimalMatch(s, i) ensures i == 0 {
          assert s[0].matches;
        }
      } else if Best(rest).Some? {
        var k :| EarliestMinimalMatch(rest, k) && rest[k] == Best(rest).value;
        assert EarliestMinimalMatch(s, k + 1);
        assert !EarliestMinimalMatch(s, 0) by {
          if s[0].matches {
            assert s[k + 1].matches && s[k + 1] == rest[k];
          }
        }
        forall i | EarliestMinimalMatch(s, i) ensures i == k + 1 {
          if i != 0 {
            assert EarliestMinimalMatch(rest, i - 1);
          }
        }
      }
    }
  }
}
