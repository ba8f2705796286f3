/**
 * The backend's in-memory history: a map from user id to the list of that
 * user's saved emails, in insertion order. Reading returns a copy sorted
 * newest first by timestamp string (Python's stable sort with reverse=True);
 * deleting removes every entry with the given id.
 */
module HistoryStore {

  import opened Schemas
  import HistoryView

  // ---------------------------------------------------------------------------
  // Python string order
  // ---------------------------------------------------------------------------

  /** Python's `a < b` on str: lexicographic by code point, a proper prefix first. */
  predicate StrLess(a: string, b: string)
    decreases |a|
  {
    if b == [] then false
    else if a == [] then true
    else if a[0] != b[0] then a[0] < b[0]
    else StrLess(a[1..], b[1..])
  }

  lemma {:induction false} StrLessIrreflexive(a: string)
    ensures !StrLess(a, a)
  {
    if a != [] {
      StrLessIrreflexive(a[1..]);
    }
  }

  lemma {:induction false} StrLessAsymmetric(a: string, b: string)
    requires StrLess(a, b)
    ensures !StrLess(b, a)
    decreases |a|
  {
    if a != [] && b != [] && a[0] == b[0] {
      StrLessAsymmetric(a[1..], b[1..]);
    }
  }

  /** a <= b < c implies a < c. */
  lemma {:induction false} StrLeLessTrans(a: string, b: string, c: string)
    requires !StrLess(b, a) && StrLess(b, c)
    ensures StrLess(a, c)
    decreases |a|
  {
    if a != [] && b != [] && c != [] && a[0] == b[0] && b[0] == c[0] {
      StrLeLessTrans(a[1..], b[1..], c[1..]);
    }
  }

  /** a >= b >= c implies a >= c. */
  lemma {:induction false} StrGeTrans(a: string, b: string, c: string)
    requires !StrLess(a, b) && !StrLess(b, c)
    ensures !StrLess(a, c)
    decreases |a|
  {
    if a != [] && b != [] && c != [] && a[0] == b[0] && b[0] == c[0] {
      StrGeTrans(a[1..], b[1..], c[1..]);
    }
  }

  // ---------------------------------------------------------------------------
  // Newest-first stable order
  // ---------------------------------------------------------------------------

  /** Every entry is at least as new as every later one. */
  predicate NewestFirstOrdered(s: seq<GeneratedEmailData>)
  {
    forall i, j :: 0 <= i < j < |s| ==> !StrLess(s[i].timestamp, s[j].timestamp)
  }

  /** Put `x` after every entry at least as new as it: before the first strictly older one. */
  function Insert(s: seq<GeneratedEmailData>, x: GeneratedEmailData): seq<GeneratedEmailData>
  {
    if s == [] then [x]
    else if StrLess(s[0].timestamp, x.timestamp) then [x] + s
    else [s[0]] + Insert(s[1..], x)
  }

  /** `sorted(s, key=timestamp, reverse=True)`, as an insertion sort from the front of `s`. */
  function NewestFirst(s: seq<GeneratedEmailData>): seq<GeneratedEmailData>
  {
    if s == [] then []
    else Insert(NewestFirst(s[..|s| - 1]), s[|s| - 1])
  }

  lemma {:induction false} InsertMultiset(s: seq<GeneratedEmailData>, x: GeneratedEmailData)
    ensures multiset(Insert(s, x)) == multiset(s) + multiset{x}
  {
    if s != [] && !StrLess(s[0].timestamp, x.timestamp) {
      InsertMultiset(s[1..], x);
      assert s == [s[0]] + s[1..];
    }
  }

  /** In a newest-first list whose head is older than `x`, every entry is older than `x`. */
  lemma AllOlder(s: seq<GeneratedEmailData>, x: GeneratedEmailData)
    requires NewestFirstOrdered(s) && s != [] && StrLess(s[0].timestamp, x.timestamp)
    ensures forall i :: 0 <= i < |s| ==> StrLess(s[i].timestamp, x.timestamp)
  {
    forall i | 0 < i < |s|
      ensures StrLess(s[i].timestamp, x.timestamp)
    {
      StrLeLessTrans(s[i].timestamp, s[0].timestamp, x.timestamp);
    }
  }

  lemma {:induction false} InsertOrdered(s: seq<GeneratedEmailData>, x: GeneratedEmailData)
    requires NewestFirstOrdered(s)
    ensures NewestFirstOrdered(Insert(s, x))
  {
    if s == [] {
    } else if StrLess(s[0].timestamp, x.timestamp) {
      AllOlder(s, x);
      forall j | 0 <= j < |s|
        ensures !StrLess(x.timestamp, s[j].timestamp)
      {
        StrLessAsymmetric(s[j].timestamp, x.timestamp);
      }
    } else {
      InsertOrdered(s[1..], x);
      var t := Insert(s[1..], x);
      InsertMultiset(s[1..], x);
      forall j | 0 <= j < |t|
        ensures !StrLess(s[0].timestamp, t[j].timestamp)
      {
        assert t[j] in multiset(t);
        assert t[j] == x || t[j] in s[1..];
      }
    }
  }

  /** The entries of `s` whose timestamp is `t`, in order. */
  function WithStamp(s: seq<GeneratedEmailData>, t: string): seq<GeneratedEmailData>
  {
    if s == [] then []
    else (if s[0].timestamp == t then [s[0]] else []) + WithStamp(s[1..], t)
  }

  lemma {:induction false} WithStampAppend(a: seq<GeneratedEmailData>, b: seq<GeneratedEmailData>, t: string)
    ensures WithStamp(a + b, t) == WithStamp(a, t) + WithStamp(b, t)
  {
    if a != [] {
      assert (a + b)[1..] == a[1..] + b;
      WithStampAppend(a[1..], b, t);
    } else {
      assert a + b == b;
    }
  }

  lemma {:induction false} WithStampNone(s: seq<GeneratedEmailData>, t: string)
    requires forall i :: 0 <= i < |s| ==> s[i].timestamp != t
    ensures WithStamp(s, t) == []
  {
    if s != [] {
      WithStampNone(s[1..], t);
    }
  }

  lemma WithStampCons(x: GeneratedEmailData, s: seq<GeneratedEmailData>, t: string)
    ensures WithStamp([x] + s, t) == (if x.timestamp == t then [x] else []) + WithStamp(s, t)
  {
    assert ([x] + s)[1..] == s;
  }

  /** Insertion goes after the entries with an equal timestamp. */
  lemma {:induction false} InsertStable(s: seq<GeneratedEmailData>, x: GeneratedEmailData, t: string)
    requires NewestFirstOrdered(s)
    ensures WithStamp(Insert(s, x), t) == WithStamp(s, t) + (if x.timestamp == t then [x] else [])
  {
    if s == [] {
    } else if StrLess(s[0].timestamp, x.timestamp) {
      WithStampCons(x, s, t);
      if x.timestamp == t {
        AllOlder(s, x);
        StrLessIrreflexive(x.timestamp);
        WithStampNone(s, t);
      }
    } else {
      InsertStable(s[1..], x, t);
      WithStampCons(s[0], Insert(s[1..], x), t);
      WithStampCons(s[0], s[1..], t);
      assert [s[0]] + s[1..] == s;
    }
  }

  /**
   * Reading a history gives a permutation of it, newest first, in which entries
   * with equal timestamps keep the order they were saved in.
   */
  lemma {:induction false} NewestFirstSpec(s: seq<GeneratedEmailData>)
    ensures |NewestFirst(s)| == |s|
    ensures multiset(NewestFirst(s)) == multiset(s)
    ensures NewestFirstOrdered(NewestFirst(s))
    ensures forall t :: WithStamp(NewestFirst(s), t) == WithStamp(s, t)
  {
    if s != [] {
      var p := s[..|s| - 1];
      var x := s[|s| - 1];
      assert s == p + [x];
      NewestFirstSpec(p);
      var q := NewestFirst(p);
      InsertMultiset(q, x);
      InsertOrdered(q, x);
      forall t
        ensures WithStamp(NewestFirst(s), t) == WithStamp(s, t)
      {
        InsertStable(q, x, t);
        WithStampAppend(p, [x], t);
      }
      assert |NewestFirst(s)| == |multiset(NewestFirst(s))|;
    }
  }

  // ---------------------------------------------------------------------------
  // Deletion by id
  // ---------------------------------------------------------------------------

  /** The list comprehension of `delete_email`: the entries whose id is not `id`, in order. */
  function WithoutId(s: seq<GeneratedEmailData>, id: string): (r: seq<GeneratedEmailData>)
    ensures |r| <= |s|
    ensures forall e :: e in r <==> e in s && e.id != id
    ensures forall e :: multiset(r)[e] == if e.id != id then multiset(s)[e] else 0
  {
    if s == [] then []
    else
      assert s == [s[0]] + s[1..];
      (if s[0].id != id then [s[0]] else []) + WithoutId(s[1..], id)
  }

  /** The entries that survive a deletion keep their relative order. */
  lemma {:induction false} WithoutIdKeepsOrder(s: seq<GeneratedEmailData>, id: string)
    ensures HistoryView.IsSubsequence(WithoutId(s, id), s)
  {
    if s != [] {
      WithoutIdKeepsOrder(s[1..], id);
      var r := WithoutId(s, id);
      if s[0].id != id {
        assert r[1..] == WithoutId(s[1..], id);
      } else if r != [] {
        assert r == WithoutId(s[1..], id);
      }
    }
  }

  /** Deleting shortens a list exactly when some entry has the id. */
  lemma {:induction false} WithoutIdShorterIff(s: seq<GeneratedEmailData>, id: string)
    ensures |WithoutId(s, id)| < |s| <==> exists i :: 0 <= i < |s| && s[i].id == id
  {
    if s != [] {
      WithoutIdShorterIff(s[1..], id);
      if exists i :: 0 <= i < |s| - 1 && s[1..][i].id == id {
        var i :| 0 <= i < |s| - 1 && s[1..][i].id == id;
        assert s[i + 1].id == id;
      }
      if exists i :: 0 <= i < |s| && s[i].id == id {
        var i :| 0 <= i < |s| && s[i].id == id;
        if i > 0 {
          assert s[1..][i - 1].id == id;
        }
      }
    }
  }

  /** Deleting an id that no entry has leaves the list as it was. */
  lemma {:induction false} WithoutAbsentId(s: seq<GeneratedEmailData>, id: string)
    requires forall i :: 0 <= i < |s| ==> s[i].id != id
    ensures WithoutId(s, id) == s
  {
    if s != [] {
      WithoutAbsentId(s[1..], id);
    }
  }

  // ---------------------------------------------------------------------------
  // The service
  // ---------------------------------------------------------------------------

  /** A user's list, or the empty list for a user never seen. */
  function HistoryOf(m: map<string, seq<GeneratedEmailData>>, userId: string): seq<GeneratedEmailData>
  {
    if userId in m then m[userId] else []
  }

  class HistoryService {
    var userHistories: map<string, seq<GeneratedEmailData>>

    constructor ()
      ensures userHistories == map[]
    {
      userHistories := map[];
    }

    /** `save_email`: the user's list (created empty if new) grows by this entry at the end; no other user changes. */
    method SaveEmail(userId: string, email: GeneratedEmailData)
      modifies this
      ensures userHistories == old(userHistories)[userId := HistoryOf(old(userHistories), userId) + [email]]
      ensures forall u :: u != userId ==> (u in userHistories <==> u in old(userHistories))
      ensures forall u :: u != userId && u in old(userHistories) ==> userHistories[u] == old(userHistories)[u]
    {
      if userId !in userHistories {
        userHistories := userHistories[userId := []];
      }
      userHistories := userHistories[userId := userHistories[userId] + [email]];
    }

    /**
     * `get_user_history`: the empty list for an unknown user; otherwise a copy
     * of the user's list, built entry by entry and then sorted newest first.
     * The stored list is not changed.
     */
    method GetUserHistory(userId: string) returns (history: seq<GeneratedEmailData>)
      ensures history == NewestFirst(HistoryOf(userHistories, userId))
    {
      if userId !in userHistories {
        return [];
      }
      var stored := userHistories[userId];
      history := [];
      var i := 0;
      while i < |stored|
        invariant 0 <= i <= |stored|
        invariant history == stored[..i]
      {
        history := history + [stored[i]];
        i := i + 1;
      }
      assert stored[..|stored|] == stored;
      history := SortNewestFirst(history);
    }

    /**
     * `delete_email`: False and no change for an unknown user; otherwise the
     * user's list loses every entry with the id, and the answer is whether it got shorter.
     */
    method DeleteEmail(userId: string, emailId: string) returns (removed: bool)
      modifies this
      ensures userId !in old(userHistories) ==> !removed && userHistories == old(userHistories)
      ensures userId in old(userHistories) ==>
        && userHistories == old(userHistories)[userId := WithoutId(old(userHistories)[userId], emailId)]
        && (removed <==> exists i :: 0 <= i < |old(userHistories)[userId]| && old(userHistories)[userId][i].id == emailId)
      ensures userId in old(userHistories) ==>
        HistoryView.IsSubsequence(userHistories[userId], old(userHistories)[userId])
    {
      if userId !in userHistories {
        return false;
      }
      var originalLength := |userHistories[userId]|;
      WithoutIdShorterIff(userHistories[userId], emailId);
      WithoutIdKeepsOrder(userHistories[userId], emailId);
      userHistories := userHistories[userId := WithoutId(userHistories[userId], emailId)];
      removed := |userHistories[userId]| < originalLength;
    }
  }

  /** Inserting past an entry at least as new as `x` keeps that entry in front. */
  lemma InsertPast(r: seq<GeneratedEmailData>, x: GeneratedEmailData, k: nat)
    requires k < |r| && !StrLess(r[k].timestamp, x.timestamp)
    ensures r[..k] + Insert(r[k..], x) == r[..k + 1] + Insert(r[k + 1..], x)
  {
    assert r[k..][1..] == r[k + 1..];
    assert r[..k + 1] == r[..k] + [r[k]];
  }

  /** Python's `list.sort(key=timestamp, reverse=True)` on a copy, as an insertion sort. */
  method SortNewestFirst(s: seq<GeneratedEmailData>) returns (r: seq<GeneratedEmailData>)
    ensures r == NewestFirst(s)
  {
    r := [];
    var i := 0;
    while i < |s|
      invariant 0 <= i <= |s|
      invariant r == NewestFirst(s[..i])
    {
      var x := s[i];
      var k := 0;
      while k < |r| && !StrLess(r[k].timestamp, x.timestamp)
        invariant 0 <= k <= |r|
        invariant Insert(r, x) == r[..k] + Insert(r[k..], x)
      {
        InsertPast(r, x, k);
        k := k + 1;
      }
      assert Insert(r[k..], x) == [x] + r[k..];
      r := r[..k] + [x] + r[k..];
      assert s[..i + 1][..i] == s[..i];
      i := i + 1;
    }
    assert s[..|s|] == s;
  }
}
